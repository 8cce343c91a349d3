/** The MCP tool registry: tools by name, named groups of tools, and the
    group each tool was last added to. Python's insertion-ordered dicts are
    a `map` together with the order in which keys first appeared. */
module ToolRegistration {
  import opened Wrappers

  /** A parameter schema. The definition's own validator looks at the
      "type" field, whether "properties" is present, and the verdict of the
      Draft 7 schema check, which is not part of this model. `keywords` is
      the rest of the schema as written ("required", "enum", the properties'
      own schemas, …): `jsonschema.validate` reads the whole schema, so two
      schemas that differ only there may judge the same parameters
      differently. */
  datatype ParamSchema = ParamSchema(typeField: Option<string>, hasProperties: bool, draft7Error: Option<string>,
                                     keywords: string)

  const SchemaPrefix: string := "Invalid parameters schema: "
  const MissingTypeField: string := "Parameters schema must have a 'type' field"
  const MissingPropertiesField: string := "Object type parameters must have a 'properties' field"

  /** `validate_parameters_schema`: the message the definition raises, if any. */
  function SchemaError(p: ParamSchema): (e: Option<string>)
    ensures e.None? <==> p.typeField.Some? && (p.typeField.value == "object" ==> p.hasProperties)
                         && p.draft7Error.None?
    ensures p.typeField.None? ==> e == Some(SchemaPrefix + MissingTypeField)
    ensures p.typeField == Some("object") && !p.hasProperties ==> e == Some(SchemaPrefix + MissingPropertiesField)
  {
    if p.typeField.None? then Some(SchemaPrefix + MissingTypeField)
    else if p.typeField.value == "object" && !p.hasProperties then
      Some(SchemaPrefix + MissingPropertiesField)
    else if p.draft7Error.Some? then Some(SchemaPrefix + p.draft7Error.value)
    else None
  }

  datatype ToolDefinition = ToolDefinition(name: string, description: string, parameters: ParamSchema)

  /** What `jsonschema.validate` does with one set of parameters: it accepts
      them, raises a ValidationError, or raises another exception. The
      check itself is not part of this model. */
  datatype SchemaCheck = Conforms | ValidationError(message: string) | OtherException(message: string)

  const ValidationFailedPrefix: string := "Parameter validation failed: "
  const UnexpectedValidationPrefix: string := "Unexpected error during parameter validation: "

  /** `ToolDefinition.validate_parameters`: the parameters themselves when
      the schema check accepts them, otherwise the check's message under the
      prefix of its kind. */
  function ValidateParameters<P>(check: SchemaCheck, params: P): (r: Result<P, string>)
    ensures r.Ok? <==> check.Conforms?
    ensures r.Ok? ==> r.value == params
    ensures check.ValidationError? ==> r == Err(ValidationFailedPrefix + check.message)
    ensures check.OtherException? ==> r == Err(UnexpectedValidationPrefix + check.message)
  {
    match check
    case Conforms => Ok(params)
    case ValidationError(m) => Err(ValidationFailedPrefix + m)
    case OtherException(m) => Err(UnexpectedValidationPrefix + m)
  }

  datatype ToolGroup = ToolGroup(name: string, description: string, tools: seq<string>)

  predicate Distinct<T(==)>(s: seq<T>) {
    forall i, j :: 0 <= i < j < |s| ==> s[i] != s[j]
  }

  /** `if x not in xs: xs.append(x)`. */
  function AppendNew<T(==,!new)>(xs: seq<T>, x: T): (r: seq<T>)
    ensures x in r
    ensures forall y :: y in r <==> y in xs || y == x
    ensures Distinct(xs) ==> Distinct(r)
    ensures x in xs ==> r == xs
  {
    if x in xs then xs else xs + [x]
  }

  /** `"Tools related to {group}"`. */
  function DefaultGroupDescription(group: string): string {
    "Tools related to " + group
  }

  /** Group `g` gains tool `t` at the end of its list, unless already listed. */
  function WithMember(groups: map<string, ToolGroup>, g: string, t: string): (r: map<string, ToolGroup>)
    requires g in groups
    ensures r.Keys == groups.Keys
    ensures t in r[g].tools && (Distinct(groups[g].tools) ==> Distinct(r[g].tools))
    ensures forall u :: u in r[g].tools <==> u in groups[g].tools || u == t
    ensures forall h :: h in groups && h != g ==> r[h] == groups[h]
  {
    groups[g := groups[g].(tools := AppendNew(groups[g].tools, t))]
  }

  /** Every group's list holds distinct tools, all of them in `tools`. */
  predicate WellFormedGroups(groups: map<string, ToolGroup>, tools: set<string>) {
    forall g :: g in groups ==> Distinct(groups[g].tools) && forall t :: t in groups[g].tools ==> t in tools
  }

  /** `if group:` — a missing or empty group name adds the tool to no group. */
  predicate Grouped(group: Option<string>) {
    group.Some? && group.value != ""
  }

  // ---------------------------------------------------------------------
  // Loading a configuration

  /** The "groups" section of a configuration: each group name with the
      "description" key of its entry, if it has one. */
  type GroupEntries = seq<(string, Option<string>)>

  function EntryDescription(e: (string, Option<string>)): string {
    if e.1.Some? then e.1.value else DefaultGroupDescription(e.0)
  }

  /** The groups after `create_group` for every configured group in order. */
  function CreatedGroups(groups: map<string, ToolGroup>, es: GroupEntries): map<string, ToolGroup> {
    if es == [] then groups
    else
      var e := es[|es| - 1];
      CreatedGroups(groups, es[..|es| - 1])[e.0 := ToolGroup(e.0, EntryDescription(e), [])]
  }

  function CreatedOrder(order: seq<string>, es: GroupEntries): seq<string> {
    if es == [] then order else AppendNew(CreatedOrder(order, es[..|es| - 1]), es[|es| - 1].0)
  }

  /** Every configured group exists afterwards, and those are the only new ones. */
  lemma {:induction false} CreatedGroupsKeys(groups: map<string, ToolGroup>, es: GroupEntries, g: string)
    ensures g in CreatedGroups(groups, es) <==> g in groups || exists i :: 0 <= i < |es| && es[i].0 == g
  {
    if es != [] {
      var init := es[..|es| - 1];
      CreatedGroupsKeys(groups, init, g);
      if exists i :: 0 <= i < |init| && init[i].0 == g {
        var i :| 0 <= i < |init| && init[i].0 == g;
        assert es[i].0 == g;
      }
      if exists i :: 0 <= i < |es| && es[i].0 == g {
        var i :| 0 <= i < |es| && es[i].0 == g;
        if i < |init| {
          assert init[i].0 == g;
        }
      }
    }
  }

  /** The last entry of a group decides it: its description (or the default)
      and an empty tool list. */
  lemma {:induction false} CreatedGroupsLast(groups: map<string, ToolGroup>, es: GroupEntries, i: nat)
    requires i < |es|
    requires forall j :: i < j < |es| ==> es[j].0 != es[i].0
    ensures es[i].0 in CreatedGroups(groups, es)
    ensures CreatedGroups(groups, es)[es[i].0] == ToolGroup(es[i].0, EntryDescription(es[i]), [])
  {
    if i < |es| - 1 {
      var init := es[..|es| - 1];
      assert init[i] == es[i];
      forall j | i < j < |init| ensures init[j].0 != init[i].0 {
        assert init[j] == es[j];
      }
      CreatedGroupsLast(groups, init, i);
    }
  }

  /** A groups section leaves the order listing every group once. */
  lemma {:induction false} CreatedOrderSpec(groups: map<string, ToolGroup>, order: seq<string>, es: GroupEntries)
    requires Distinct(order) && forall g :: g in order <==> g in groups
    ensures Distinct(CreatedOrder(order, es))
    ensures forall g :: g in CreatedOrder(order, es) <==> g in CreatedGroups(groups, es)
  {
    if es != [] {
      CreatedOrderSpec(groups, order, es[..|es| - 1]);
    }
  }

  /** The "tool_groups" section: tool name and group name pairs. */
  type Links = seq<(string, string)>

  predicate Linkable(tools: set<string>, groups: set<string>, p: (string, string)) {
    p.0 in tools && p.1 in groups
  }

  /** The tool-to-group map after linking every pair whose tool and group exist. */
  function LinkedOwners(tools: set<string>, groups: set<string>, owners: map<string, string>, ps: Links)
    : map<string, string>
  {
    if ps == [] then owners
    else
      var p := ps[|ps| - 1];
      var before := LinkedOwners(tools, groups, owners, ps[..|ps| - 1]);
      if Linkable(tools, groups, p) then before[p.0 := p.1] else before
  }

  /** The groups after linking: each linkable pair's tool joins its group once. */
  function LinkedGroups(tools: set<string>, groups: map<string, ToolGroup>, ps: Links): (r: map<string, ToolGroup>)
    ensures r.Keys == groups.Keys
  {
    if ps == [] then groups
    else
      var p := ps[|ps| - 1];
      var before := LinkedGroups(tools, groups, ps[..|ps| - 1]);
      if Linkable(tools, groups.Keys, p) then WithMember(before, p.1, p.0) else before
  }

  /** Only linkable pairs change the tool-to-group map: every entry that is new
      or different comes from a pair whose tool and group both exist. */
  lemma {:induction false} LinkedOwnersOnlyLinkable(tools: set<string>, groups: set<string>,
                                                     owners: map<string, string>, ps: Links, t: string)
    requires t in LinkedOwners(tools, groups, owners, ps)
    requires t !in owners || LinkedOwners(tools, groups, owners, ps)[t] != owners[t]
    ensures exists i :: 0 <= i < |ps| && ps[i] == (t, LinkedOwners(tools, groups, owners, ps)[t])
                        && Linkable(tools, groups, ps[i])
  {
    var init := ps[..|ps| - 1];
    var p := ps[|ps| - 1];
    if Linkable(tools, groups, p) && p.0 == t {
      assert ps[|ps| - 1] == (t, LinkedOwners(tools, groups, owners, ps)[t]);
    } else {
      assert LinkedOwners(tools, groups, owners, ps)[t] == LinkedOwners(tools, groups, owners, init)[t];
      LinkedOwnersOnlyLinkable(tools, groups, owners, init, t);
      var i :| 0 <= i < |init| && init[i] == (t, LinkedOwners(tools, groups, owners, init)[t])
               && Linkable(tools, groups, init[i]);
      assert ps[i] == init[i];
    }
  }

  /** The last linkable pair of a tool decides its group. */
  lemma {:induction false} LinkedOwnersLast(tools: set<string>, groups: set<string>, owners: map<string, string>,
                                             ps: Links, i: nat)
    requires i < |ps| && Linkable(tools, groups, ps[i])
    requires forall j :: i < j < |ps| ==> ps[j].0 != ps[i].0 || !Linkable(tools, groups, ps[j])
    ensures ps[i].0 in LinkedOwners(tools, groups, owners, ps)
    ensures LinkedOwners(tools, groups, owners, ps)[ps[i].0] == ps[i].1
  {
    if i < |ps| - 1 {
      var init := ps[..|ps| - 1];
      assert init[i] == ps[i];
      forall j | i < j < |init| ensures init[j].0 != init[i].0 || !Linkable(tools, groups, init[j]) {
        assert init[j] == ps[j];
      }
      LinkedOwnersLast(tools, groups, owners, init, i);
    }
  }

  /** Linking keeps every group's list free of duplicates and made of known tools. */
  lemma {:induction false} LinkedGroupsWellFormed(tools: set<string>, groups: map<string, ToolGroup>, ps: Links)
    requires WellFormedGroups(groups, tools)
    ensures WellFormedGroups(LinkedGroups(tools, groups, ps), tools)
  {
    if ps != [] {
      var init := ps[..|ps| - 1];
      var p := ps[|ps| - 1];
      LinkedGroupsWellFormed(tools, groups, init);
      var before := LinkedGroups(tools, groups, init);
      if Linkable(tools, groups.Keys, p) {
        var r := WithMember(before, p.1, p.0);
        assert LinkedGroups(tools, groups, ps) == r;
        forall g | g in r ensures Distinct(r[g].tools) && forall t :: t in r[g].tools ==> t in tools {
          if g != p.1 {
            assert r[g] == before[g];
          }
        }
      }
    }
  }

  // ---------------------------------------------------------------------
  // The registry

  class ToolRegistry {
    var tools: map<string, ToolDefinition>
    var toolOrder: seq<string>
    var groups: map<string, ToolGroup>
    var groupOrder: seq<string>
    var toolToGroup: map<string, string>

    /** The dictionaries' shape: orders list each key once, every tool and
        group is stored under its own name, group lists hold distinct
        registered tools, and the tool-to-group map links registered tools
        to existing groups. */
    ghost predicate Valid()
      reads this
    {
      && Distinct(toolOrder) && (forall n :: n in toolOrder <==> n in tools)
      && Distinct(groupOrder) && (forall g :: g in groupOrder <==> g in groups)
      && (forall n :: n in tools ==> tools[n].name == n)
      && (forall g :: g in groups ==> groups[g].name == g)
      && WellFormedGroups(groups, tools.Keys)
      && (forall t :: t in toolToGroup ==> t in tools && toolToGroup[t] in groups)
    }

    constructor ()
      ensures Valid()
      ensures tools == map[] && toolOrder == [] && groups == map[] && groupOrder == []
      ensures toolToGroup == map[]
    {
      tools := map[];
      toolOrder := [];
      groups := map[];
      groupOrder := [];
      toolToGroup := map[];
    }

    /** `create_group`: a group of that name, with an empty tool list,
        replaces any group of the same name. */
    method CreateGroup(name: string, description: string)
      requires Valid()
      modifies this
      ensures Valid()
      ensures groups == old(groups)[name := ToolGroup(name, description, [])]
      ensures groupOrder == AppendNew(old(groupOrder), name)
      ensures tools == old(tools) && toolOrder == old(toolOrder) && toolToGroup == old(toolToGroup)
    {
      groups := groups[name := ToolGroup(name, description, [])];
      groupOrder := AppendNew(groupOrder, name);
    }

    /** `add_tool_to_group`: false, changing nothing, when either the tool or
        the group is unknown; otherwise the tool is listed in the group once
        and recorded as the group's member. */
    method AddToolToGroup(tool: string, group: string) returns (ok: bool)
      requires Valid()
      modifies this
      ensures Valid()
      ensures ok <==> tool in old(tools) && group in old(groups)
      ensures !ok ==> groups == old(groups) && toolToGroup == old(toolToGroup)
      ensures ok ==> groups == WithMember(old(groups), group, tool)
                     && toolToGroup == old(toolToGroup)[tool := group]
      ensures tools == old(tools) && toolOrder == old(toolOrder) && groupOrder == old(groupOrder)
    {
      if tool !in tools {
        return false;
      }
      if group !in groups {
        return false;
      }
      groups := WithMember(groups, group, tool);
      toolToGroup := toolToGroup[tool := group];
      return true;
    }

    /** `register_tool`. A schema the definition rejects raises before anything
        changes; otherwise the tool is stored under its name (replacing an
        earlier one) and, when a group is named, added to that group, which is
        created with the default description if it does not exist. */
    method RegisterTool(name: string, description: string, parameters: ParamSchema, group: Option<string>)
      returns (err: Option<string>)
      requires Valid()
      modifies this
      ensures Valid()
      ensures err == SchemaError(parameters)
      ensures err.Some? ==> tools == old(tools) && toolOrder == old(toolOrder) && groups == old(groups)
                            && groupOrder == old(groupOrder) && toolToGroup == old(toolToGroup)
      ensures err.None? ==> tools == old(tools)[name := ToolDefinition(name, description, parameters)]
                            && toolOrder == AppendNew(old(toolOrder), name)
      ensures err.None? && !Grouped(group) ==>
        groups == old(groups) && groupOrder == old(groupOrder) && toolToGroup == old(toolToGroup)
      ensures err.None? && Grouped(group) ==>
        var g := group.value;
        var created := if g in old(groups) then old(groups)
                       else old(groups)[g := ToolGroup(g, DefaultGroupDescription(g), [])];
        && groups == WithMember(created, g, name)
        && groupOrder == AppendNew(old(groupOrder), g)
        && toolToGroup == old(toolToGroup)[name := g]
    {
      err := SchemaError(parameters);
      if err.Some? {
        return;
      }
      tools := tools[name := ToolDefinition(name, description, parameters)];
      toolOrder := AppendNew(toolOrder, name);
      if Grouped(group) {
        var g := group.value;
        if g !in groups {
          CreateGroup(g, DefaultGroupDescription(g));
        }
        var _ := AddToolToGroup(name, g);
      }
    }

    /** `get_tool`. */
    method GetTool(name: string) returns (r: Option<ToolDefinition>)
      requires Valid()
      ensures r.Some? <==> name in tools
      ensures r.Some? ==> r.value == tools[name] && r.value.name == name
    {
      if name in tools {
        return Some(tools[name]);
      }
      return None;
    }

    /** `list_tools`: every registered name once, in registration order. */
    method ListTools() returns (r: seq<string>)
      requires Valid()
      ensures r == toolOrder
      ensures Distinct(r) && forall n :: n in r <==> n in tools
    {
      r := toolOrder;
    }

    /** `get_tools_by_group`: an unknown group has no tools. */
    method GetToolsByGroup(group: string) returns (r: seq<string>)
      ensures group !in groups ==> r == []
      ensures group in groups ==> r == groups[group].tools
    {
      if group !in groups {
        return [];
      }
      return groups[group].tools;
    }

    /** `list_groups`. */
    method ListGroups() returns (r: seq<string>)
      requires Valid()
      ensures r == groupOrder
      ensures Distinct(r) && forall g :: g in r <==> g in groups
    {
      r := groupOrder;
    }

    /** `get_group_info`. */
    method GetGroupInfo(group: string) returns (r: Option<ToolGroup>)
      ensures r.Some? <==> group in groups
      ensures r.Some? ==> r.value == groups[group]
    {
      if group !in groups {
        return None;
      }
      return Some(groups[group]);
    }

    /** The first loop of `load_from_config`: `create_group` for every
        configured group, in order. */
    method CreateConfiguredGroups(es: GroupEntries)
      requires Valid()
      modifies this
      ensures Valid()
      ensures groups == CreatedGroups(old(groups), es) && groupOrder == CreatedOrder(old(groupOrder), es)
      ensures tools == old(tools) && toolOrder == old(toolOrder) && toolToGroup == old(toolToGroup)
    {
      var i := 0;
      while i < |es|
        invariant 0 <= i <= |es| && Valid()
        invariant groups == CreatedGroups(old(groups), es[..i])
        invariant groupOrder == CreatedOrder(old(groupOrder), es[..i])
        invariant tools == old(tools) && toolOrder == old(toolOrder) && toolToGroup == old(toolToGroup)
      {
        assert es[..i + 1][..i] == es[..i];
        assert es[..i + 1][i] == es[i];
        CreateGroup(es[i].0, EntryDescription(es[i]));
        i := i + 1;
      }
      assert es[..|es|] == es;
    }

    /** The second loop of `load_from_config`: each pair is linked when its
        tool and its group both exist, and skipped otherwise. */
    method LinkConfiguredTools(ps: Links)
      requires Valid()
      modifies this
      ensures Valid()
      ensures groups == LinkedGroups(old(tools).Keys, old(groups), ps)
      ensures toolToGroup == LinkedOwners(old(tools).Keys, old(groups).Keys, old(toolToGroup), ps)
      ensures tools == old(tools) && toolOrder == old(toolOrder) && groupOrder == old(groupOrder)
    {
      var j := 0;
      while j < |ps|
        invariant 0 <= j <= |ps| && Valid()
        invariant groups == LinkedGroups(tools.Keys, old(groups), ps[..j])
        invariant groups.Keys == old(groups).Keys
        invariant toolToGroup == LinkedOwners(tools.Keys, old(groups).Keys, old(toolToGroup), ps[..j])
        invariant tools == old(tools) && toolOrder == old(toolOrder) && groupOrder == old(groupOrder)
      {
        assert ps[..j + 1][..j] == ps[..j];
        assert ps[..j + 1][j] == ps[j];
        var (t, g) := ps[j];
        if t in tools && g in groups {
          var _ := AddToolToGroup(t, g);
        }
        j := j + 1;
      }
      assert ps[..|ps|] == ps;
    }

    /** `load_from_config`: first every configured group is created, then
        the configured tools are linked to them. */
    method LoadFromConfig(groupEntries: Option<GroupEntries>, links: Option<Links>)
      requires Valid()
      modifies this
      ensures Valid()
      ensures var es := if groupEntries.Some? then groupEntries.value else [];
        var ps := if links.Some? then links.value else [];
        var created := CreatedGroups(old(groups), es);
        && groupOrder == CreatedOrder(old(groupOrder), es)
        && groups == LinkedGroups(old(tools).Keys, created, ps)
        && toolToGroup == LinkedOwners(old(tools).Keys, created.Keys, old(toolToGroup), ps)
      ensures tools == old(tools) && toolOrder == old(toolOrder)
    {
      if groupEntries.Some? {
        CreateConfiguredGroups(groupEntries.value);
      }
      if links.Some? {
        LinkConfiguredTools(links.value);
      }
    }

    /** `validate_tool_parameters`: an unknown tool is an error; a known one's
        parameters go through its definition's validation, with the schema
        check as a parameter of the model. */
    method ValidateToolParameters<P>(name: string, params: P, validate: (ParamSchema, P) -> SchemaCheck)
      returns (r: Result<P, string>)
      requires Valid()
      ensures name !in tools ==> r == Err("Tool '" + name + "' not found")
      ensures name in tools ==> r == ValidateParameters(validate(tools[name].parameters, params), params)
      ensures r.Ok? ==> r.value == params
    {
      var tool := GetTool(name);
      if tool.None? {
        return Err("Tool '" + name + "' not found");
      }
      r := ValidateParameters(validate(tool.value.parameters, params), params);
    }
  }
}
