/** Tool definitions and the tool choice of a chat request: the validator's loops and what they accept. */
module ToolDefinitions {
  import opened Wrappers
  import opened StringOrder
  import opened Sorting
  import opened StreamChunks
  import opened RawStreams
  import A = ToolAliases
  import R = ToolAliasRules

  const MAX_DEPTH := 32
  const MAX_KEY := 256
  const MAX_DESCRIPTION := 8192

  // A parsed JSON value; `Scalar` is null, a boolean or a number.
  datatype Json = Scalar | Text(text: string) | Items(items: seq<Json>) | Object(fields: map<string, Json>)

  // --- Depth ------------------------------------------------------------------------------

  // How many containers enclose the innermost value.
  function Nesting(v: Json): (n: int)
    ensures n >= 0
  {
    match v
    case Items(items) => Greatest(set item | item in items :: 1 + Nesting(item))
    case Object(fields) => Greatest(set key | key in fields :: 1 + Nesting(fields[key]))
    case _ => 0
  }

  predicate BoundedKey(key: string) {
    key != "" && |key| <= MAX_KEY
  }

  predicate KeysBounded(v: Json) {
    match v
    case Items(items) => forall item <- items :: KeysBounded(item)
    case Object(fields) => forall key <- fields :: 1 <= |key| <= 256 && KeysBounded(fields[key])
    case _ => true
  }

  // The walk: a value at this depth and everything below it.
  predicate Walk(v: Json, depth: nat)
    decreases v
  {
    && depth <= MAX_DEPTH
    && match v
       case Items(items) => forall i | 0 <= i < |items| :: Walk(items[i], depth + 1)
       case Object(fields) => forall key <- fields :: BoundedKey(key) && Walk(fields[key], depth + 1)
       case _ => true
  }

  // An object's fields are visited in any order.
  method ValidateJSONDepth(v: Json, depth: nat) returns (ok: bool)
    ensures ok <==> Walk(v, depth)
    decreases v
  {
    if depth > MAX_DEPTH {
      return false;
    }
    match v {
      case Items(items) =>
        for i := 0 to |items|
          invariant forall k | 0 <= k < i :: Walk(items[k], depth + 1)
        {
          var below := ValidateJSONDepth(items[i], depth + 1);
          if !below {
            return false;
          }
        }
      case Object(fields) =>
        var left := fields.Keys;
        while left != {}
          invariant left <= fields.Keys
          invariant forall key <- fields | key !in left :: BoundedKey(key) && Walk(fields[key], depth + 1)
          decreases |left|
        {
          var key :| key in left;
          if key == "" || |key| > MAX_KEY {
            return false;
          }
          var below := ValidateJSONDepth(fields[key], depth + 1);
          if !below {
            return false;
          }
          left := left - {key};
        }
      case _ =>
    }
    ok := true;
  }

  // The walk accepts exactly the values nested no deeper than 32 whose keys are all bounded.
  lemma {:induction false} WalkMeans(v: Json, depth: nat)
    ensures Walk(v, depth) <==> depth + Nesting(v) <= 32 && KeysBounded(v)
    decreases v
  {
    if depth <= MAX_DEPTH {
      match v
      case Items(items) =>
        forall i | 0 <= i < |items|
          ensures Walk(items[i], depth + 1) <==> depth + 1 + Nesting(items[i]) <= 32 && KeysBounded(items[i])
        {
          WalkMeans(items[i], depth + 1);
        }
        WithinItems(items, 32 - depth);
      case Object(fields) =>
        forall key <- fields
          ensures Walk(fields[key], depth + 1) <==> depth + 1 + Nesting(fields[key]) <= 32 && KeysBounded(fields[key])
        {
          WalkMeans(fields[key], depth + 1);
        }
        WithinFields(fields, 32 - depth);
      case _ =>
    }
  }

  lemma WithinItems(items: seq<Json>, n: nat)
    ensures Nesting(Items(items)) <= n <==> forall i | 0 <= i < |items| :: 1 + Nesting(items[i]) <= n
  {
    var depths := set item | item in items :: 1 + Nesting(item);
    assert Nesting(Items(items)) == Greatest(depths);
    assert forall i | 0 <= i < |items| :: 1 + Nesting(items[i]) in depths;
  }

  lemma WithinFields(fields: map<string, Json>, n: nat)
    ensures Nesting(Object(fields)) <= n <==> forall key <- fields :: 1 + Nesting(fields[key]) <= n
  {
    var depths := set key | key in fields :: 1 + Nesting(fields[key]);
    assert Nesting(Object(fields)) == Greatest(depths);
    assert forall key <- fields :: 1 + Nesting(fields[key]) in depths;
  }

  // --- Parameters -------------------------------------------------------------------------

  // The required names are distinct properties.
  predicate ValidRequired(items: seq<Json>, properties: map<string, Json>) {
    && (forall i | 0 <= i < |items| :: items[i].Text? && items[i].text != "" && items[i].text in properties)
    && (forall i, j | 0 <= i < j < |items| :: items[i] != items[j])
  }

  predicate ValidParameters(schema: Json) {
    && schema.Object? && "type" in schema.fields && schema.fields["type"] == Text("object")
    && "properties" in schema.fields && schema.fields["properties"].Object?
    && ("required" in schema.fields ==>
          && schema.fields["required"].Items?
          && ValidRequired(schema.fields["required"].items, schema.fields["properties"].fields))
    && Walk(schema, 0)
  }

  method ValidateToolParameters(schema: Json) returns (ok: bool)
    ensures ok <==> ValidParameters(schema)
  {
    hide Walk;
    if !schema.Object? || "type" !in schema.fields || schema.fields["type"] != Text("object") {
      return false;
    }
    if "properties" !in schema.fields || !schema.fields["properties"].Object? {
      return false;
    }
    var properties := schema.fields["properties"].fields;
    if "required" in schema.fields {
      if !schema.fields["required"].Items? {
        return false;
      }
      var items := schema.fields["required"].items;
      var seen: set<string> := {};
      for i := 0 to |items|
        invariant forall k | 0 <= k < i :: items[k].Text? && items[k].text != "" && items[k].text in properties
        invariant forall name :: name in seen <==> exists k | 0 <= k < i :: items[k] == Text(name)
        invariant forall k, l | 0 <= k < l < i :: items[k] != items[l]
      {
        if !items[i].Text? || items[i].text == "" {
          return false;
        }
        if items[i].text !in properties {
          return false;
        }
        if items[i].text in seen {
          return false;
        }
        seen := seen + {items[i].text};
      }
    }
    ok := ValidateJSONDepth(schema, 0);
  }

  // --- Tools ------------------------------------------------------------------------------

  // `parameters` is None when they do not parse.
  datatype Tool = Tool(kind: string, name: string, description: string, parameters: Option<Json>)

  predicate ValidTool(tool: Tool) {
    && tool.kind == "function" && ValidToolName(tool.name) && |tool.description| <= MAX_DESCRIPTION
    && tool.parameters.Some? && ValidParameters(tool.parameters.value)
  }

  function NamesOf(tools: seq<Tool>): (names: seq<string>)
    ensures |names| == |tools| && forall i | 0 <= i < |tools| :: names[i] == tools[i].name
  {
    seq(|tools|, i requires 0 <= i < |tools| => tools[i].name)
  }

  predicate ValidTools(tools: seq<Tool>) {
    |tools| <= A.MAX_TOOLS && (forall tool <- tools :: ValidTool(tool)) && Distinct(NamesOf(tools))
  }

  // Tools are accepted exactly when there are not too many, each is valid and their names are distinct;
  // the names are then known to the check of the tool choice.
  method ValidateTools(tools: seq<Tool>) returns (names: Option<set<string>>)
    ensures names.Some? <==> ValidTools(tools)
    ensures names.Some? ==> forall name :: name in names.value <==> name in NamesOf(tools)
  {
    hide ValidToolName, ValidParameters;
    if |tools| > A.MAX_TOOLS {
      return None;
    }
    var known: set<string> := {};
    for i := 0 to |tools|
      invariant forall k | 0 <= k < i :: ValidTool(tools[k])
      invariant forall name :: name in known <==> exists k | 0 <= k < i :: tools[k].name == name
      invariant forall k, l | 0 <= k < l < i :: tools[k].name != tools[l].name
    {
      var tool := tools[i];
      assert tool in tools;
      if tool.kind != "function" || !ValidToolName(tool.name) || |tool.description| > MAX_DESCRIPTION {
        return None;
      }
      if tool.name in known {
        var k :| 0 <= k < i && tools[k].name == tool.name;
        assert NamesOf(tools)[k] == NamesOf(tools)[i];
        return None;
      }
      if tool.parameters.None? {
        return None;
      }
      var ok := ValidateToolParameters(tool.parameters.value);
      if !ok {
        return None;
      }
      known := known + {tool.name};
    }
    assert forall k | 0 <= k < |tools| :: NamesOf(tools)[k] == tools[k].name;
    names := Some(known);
  }

  // --- The tool choice --------------------------------------------------------------------

  datatype Choice = NoChoice | Word(text: string) | Named(kind: string, name: string) | Malformed

  // A choice needs the tools it speaks of.
  predicate ValidChoice(choice: Choice, names: set<string>) {
    match choice
    case NoChoice => true
    case Word(text) => text == "none" || ((text == "auto" || text == "required") && names != {})
    case Named(kind, name) => kind == "function" && ValidToolName(name) && name in names
    case Malformed => false
  }

  method ValidateToolChoice(choice: Choice, names: set<string>) returns (ok: bool)
    ensures ok <==> ValidChoice(choice, names)
  {
    match choice {
      case NoChoice => return true;
      case Word(text) =>
        if text != "auto" && text != "none" && text != "required" {
          return false;
        }
        if text != "none" && |names| == 0 {
          return false;
        }
        return true;
      case Named(kind, name) =>
        if kind != "function" || !ValidToolName(name) {
          return false;
        }
        return name in names;
      case Malformed => return false;
    }
  }

  // --- What is accepted -------------------------------------------------------------------

  // The names a schema requires are distinct properties of it.
  predicate RequiredAllowed(required: Json, properties: map<string, Json>) {
    && required.Items?
    && (forall item <- required.items :: item.Text? && item.text != "" && item.text in properties)
    && (forall i, j | 0 <= i < j < |required.items| :: required.items[i] != required.items[j])
  }

  // An object schema with properties, nested no deeper than 32, all keys of 1 to 256 characters.
  predicate SchemaAllowed(schema: Json) {
    && schema.Object? && KeysBounded(schema) && Nesting(schema) <= 32
    && "type" in schema.fields && schema.fields["type"] == Text("object")
    && "properties" in schema.fields && schema.fields["properties"].Object?
    && ("required" in schema.fields ==> RequiredAllowed(schema.fields["required"], schema.fields["properties"].fields))
  }

  predicate ToolAllowed(tool: Tool) {
    match tool
    case Tool(kind, name, description, Some(schema)) => kind == "function" && NameAllowed(name) && |description| <= 8192 && SchemaAllowed(schema)
    case Tool(_, _, _, None) => false
  }

  // The validator takes up to 128 tools, each acceptable by itself, no two of one name.
  lemma ToolsExactly(tools: seq<Tool>)
    ensures ValidTools(tools)
            <==> && |tools| <= 128 && (forall tool <- tools :: ToolAllowed(tool))
                 && forall i, j | 0 <= i < j < |tools| :: tools[i].name != tools[j].name
  {
    hide ValidTool, ToolAllowed;
    forall tool <- tools
      ensures ValidTool(tool) <==> ToolAllowed(tool)
    {
      ToolIs(tool);
    }
    if Distinct(NamesOf(tools)) {
      forall i, j | 0 <= i < j < |tools|
        ensures tools[i].name != tools[j].name
      {
        assert NamesOf(tools)[i] != NamesOf(tools)[j];
      }
    }
  }

  lemma ToolIs(tool: Tool)
    ensures ValidTool(tool) <==> ToolAllowed(tool)
  {
    hide ValidToolName, NameAllowed, Walk, Nesting, KeysBounded;
    NamesAllowed(tool.name);
    if tool.parameters.Some? {
      WalkMeans(tool.parameters.value, 0);
    }
  }

  // Which tool choices are accepted, given the names that were declared.
  lemma ChoiceExactly(names: set<string>, text: string, kind: string, name: string)
    ensures ValidChoice(NoChoice, names) && !ValidChoice(Malformed, names) && ValidChoice(Word("none"), names)
    ensures ValidChoice(Word("auto"), names) <==> names != {}
    ensures ValidChoice(Word("required"), names) <==> names != {}
    ensures ValidChoice(Word(text), names) ==> text == "none" || text == "auto" || text == "required"
    ensures ValidChoice(Named(kind, name), names) <==> kind == "function" && name in names && NameAllowed(name)
  {
    NamesAllowed(name);
    hide ValidToolName, NameAllowed;
  }

  // --- Flattened tools pass ---------------------------------------------------------------

  // Tools that carry the names of a built alias table and are otherwise valid are accepted.
  lemma FlattenedToolsAccepted(hash: string -> string, values: seq<A.Declared>, tools: seq<Tool>)
    requires A.Hexadecimal(hash) && A.ToolsToChat(hash, values).Some?
    requires NamesOf(tools) == A.ToolsToChat(hash, values).value.tools
    requires forall tool <- tools :: ValidToolName(tool.name) ==> ValidTool(tool)
    ensures ValidTools(tools)
  {
    hide ValidTool, A.Hexadecimal, A.ToolsToChat, ValidToolName, Distinct;
    R.DistinctNames(hash, values, "");
    R.Bounded(hash, values);
    forall tool | tool in tools
      ensures ValidTool(tool)
    {
      var k :| 0 <= k < |tools| && tools[k] == tool;
      assert NamesOf(tools)[k] in NamesOf(tools);
    }
  }
}
