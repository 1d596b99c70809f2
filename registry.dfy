/**
 * The tool registry (app/tools/registry.py): tool classes and tool instances
 * kept under their names, classes instantiated on first use. A Python dict
 * is modelled as a map plus the order in which its keys were first
 * inserted; overwriting a key keeps its position. What a tool does when it
 * is called is foreign code and is passed in as a function.
 */
module Registry {
  import opened Wrappers
  import opened Json

  /** A tool class: its Python class name and its `name` attribute, if it has one. */
  datatype ToolClass = ToolClass(className: string, name: Option<string>)

  /**
   * A tool object: its `name` attribute and an identity standing for Python
   * object identity (instances the registry creates are numbered in order).
   */
  datatype Tool = Tool(name: Option<string>, id: nat)

  /** `hasattr(x, 'name') and x.name`: the attribute exists and is not empty. */
  predicate HasName(name: Option<string>) {
    name.Some? && name.value != ""
  }

  predicate NoDup(s: seq<string>) {
    forall i, j :: 0 <= i < j < |s| ==> s[i] != s[j]
  }

  /** `keys` lists the keys of `m`, each once: the insertion order of a dict. */
  ghost predicate Table<V>(keys: seq<string>, m: map<string, V>) {
    NoDup(keys) && forall k :: k in keys <==> k in m
  }

  /** The key order after `m[k] = v`: a new key goes last, an old one stays where it is. */
  function KeysAfter<V>(keys: seq<string>, m: map<string, V>, k: string): seq<string> {
    if k in m then keys else keys + [k]
  }

  lemma InsertKeepsTable<V>(keys: seq<string>, m: map<string, V>, k: string, v: V)
    requires Table(keys, m)
    ensures Table(KeysAfter(keys, m, k), m[k := v])
  {
  }

  /** Every name in a table of tools is the name of the tool stored under it. */
  predicate ToolsNamed(m: map<string, Tool>) {
    forall k :: k in m ==> m[k].name == Some(k)
  }

  /** The keys and map after `register_instance` of each tool of `tools` in turn. */
  function Registering(keys: seq<string>, m: map<string, Tool>, tools: seq<Tool>): (r: (seq<string>, map<string, Tool>))
    requires forall i :: 0 <= i < |tools| ==> HasName(tools[i].name)
    decreases |tools|
  {
    if tools == [] then (keys, m)
    else
      var before := Registering(keys, m, tools[..|tools| - 1]);
      var t := tools[|tools| - 1];
      assert HasName(t.name);
      (KeysAfter(before.0, before.1, t.name.value), before.1[t.name.value := t])
  }

  /** Registering keeps the key order a table of correctly named tools. */
  lemma {:induction false} RegisteringKeepsTable(keys: seq<string>, m: map<string, Tool>, tools: seq<Tool>)
    requires forall i :: 0 <= i < |tools| ==> HasName(tools[i].name)
    requires Table(keys, m) && ToolsNamed(m)
    ensures Table(Registering(keys, m, tools).0, Registering(keys, m, tools).1)
    ensures ToolsNamed(Registering(keys, m, tools).1)
    decreases |tools|
  {
    if tools != [] {
      RegisteringKeepsTable(keys, m, tools[..|tools| - 1]);
      var before := Registering(keys, m, tools[..|tools| - 1]);
      var t := tools[|tools| - 1];
      InsertKeepsTable(before.0, before.1, t.name.value, t);
    }
  }

  /**
   * A later registration under the same name overwrites an earlier one: the
   * name is bound to the last tool registered under it.
   */
  lemma {:induction false} LastRegistrationWins(keys: seq<string>, m: map<string, Tool>, tools: seq<Tool>, j: int)
    requires forall i :: 0 <= i < |tools| ==> HasName(tools[i].name)
    requires 0 <= j < |tools| && forall l :: j < l < |tools| ==> tools[l].name != tools[j].name
    ensures HasName(tools[j].name)
    ensures tools[j].name.value in Registering(keys, m, tools).1
    ensures Registering(keys, m, tools).1[tools[j].name.value] == tools[j]
    decreases |tools|
  {
    if j < |tools| - 1 {
      LastRegistrationWins(keys, m, tools[..|tools| - 1], j);
    }
  }

  /** A name no tool of `tools` carries keeps its old binding. */
  lemma {:induction false} UnregisteredNameKept(keys: seq<string>, m: map<string, Tool>, tools: seq<Tool>, k: string)
    requires forall i :: 0 <= i < |tools| ==> HasName(tools[i].name)
    requires forall i :: 0 <= i < |tools| ==> tools[i].name != Some(k)
    ensures (k in Registering(keys, m, tools).1) == (k in m)
    ensures k in m ==> Registering(keys, m, tools).1[k] == m[k]
    decreases |tools|
  {
    if tools != [] {
      UnregisteredNameKept(keys, m, tools[..|tools| - 1], k);
    }
  }

  /** The position of the first tool without a name, or |tools|. */
  function FirstUnnamed(tools: seq<Tool>): (n: nat)
    ensures n <= |tools|
    ensures forall i :: 0 <= i < n ==> HasName(tools[i].name)
    ensures n < |tools| ==> !HasName(tools[n].name)
  {
    if tools == [] then 0
    else if !HasName(tools[0].name) then 0
    else 1 + FirstUnnamed(tools[1..])
  }

  /** The keys of `keys` that `m` lacks, in order. */
  function Missing<V>(keys: seq<string>, m: map<string, V>): (r: seq<string>)
    ensures forall k :: k in r <==> k in keys && k !in m
    ensures NoDup(keys) ==> NoDup(r)
    ensures |r| <= |keys|
  {
    if keys == [] then []
    else
      var before := Missing(keys[..|keys| - 1], m);
      var last := keys[|keys| - 1];
      assert forall k :: k in keys <==> k in keys[..|keys| - 1] || k == last;
      if last in m then before else before + [last]
  }

  lemma MissingStep<V>(keys: seq<string>, m: map<string, V>, i: int)
    requires 0 <= i < |keys|
    ensures Missing(keys[..i + 1], m) == Missing(keys[..i], m) + (if keys[i] in m then [] else [keys[i]])
  {
    assert keys[..i + 1][..i] == keys[..i];
  }

  /** The values of a table in key order. */
  function Values<V>(keys: seq<string>, m: map<string, V>): (vs: seq<V>)
    requires forall i :: 0 <= i < |keys| ==> keys[i] in m
    ensures |vs| == |keys|
    ensures forall i :: 0 <= i < |keys| ==> vs[i] == m[keys[i]]
  {
    seq(|keys|, i requires 0 <= i < |keys| => m[keys[i]])
  }

  lemma {:induction false} DistinctCount(s: seq<string>)
    requires NoDup(s)
    ensures |set x | x in s| == |s|
    decreases |s|
  {
    if s != [] {
      var init := s[..|s| - 1];
      DistinctCount(init);
      assert (set x | x in s) == (set x | x in init) + {s[|s| - 1]};
    }
  }

  /** Two duplicate-free lists with the same elements have the same length. */
  lemma SameElementsSameLength(a: seq<string>, b: seq<string>)
    requires NoDup(a) && NoDup(b)
    requires forall x :: x in a <==> x in b
    ensures |a| == |b|
  {
    DistinctCount(a);
    DistinctCount(b);
    assert (set x | x in a) == (set x | x in b);
  }

  /** The text `call_tool` returns for a name that is not registered. */
  function NotFound(name: string): string {
    "Error: Tool '" + name + "' not found"
  }

  /** The text `call_tool` returns when the tool raises. */
  function ExecutionError(name: string, error: string): string {
    "Error executing tool '" + name + "': " + error
  }

  class ToolRegistry {
    var classNames: seq<string>
    var classes: map<string, ToolClass>
    var instanceNames: seq<string>
    var instances: map<string, Tool>
    /** How many instances the registry has created; the next one gets this identity. */
    var instantiated: nat

    ghost predicate Valid()
      reads this
    {
      Table(classNames, classes) && Table(instanceNames, instances)
      && (forall k :: k in classes ==> classes[k].name == Some(k))
      && ToolsNamed(instances)
    }

    constructor ()
      ensures Valid()
      ensures classNames == [] && classes == map[] && instanceNames == [] && instances == map[]
      ensures instantiated == 0
    {
      classNames, classes := [], map[];
      instanceNames, instances := [], map[];
      instantiated := 0;
    }

    /**
     * `register_class`: a class without a non-empty name raises ValueError and
     * changes nothing; otherwise it is stored under its name, replacing any
     * class registered there before.
     */
    method RegisterClass(cls: ToolClass) returns (r: Result<ToolClass>)
      requires Valid()
      modifies this
      ensures Valid()
      ensures r.Raised? <==> !HasName(cls.name)
      ensures r.Raised? ==> r.error == "Tool class " + cls.className + " must have a 'name' attribute"
                            && classes == old(classes) && classNames == old(classNames)
      ensures r.Ok? ==> r.value == cls && classes == old(classes)[cls.name.value := cls]
                        && classNames == KeysAfter(old(classNames), old(classes), cls.name.value)
      ensures instances == old(instances) && instanceNames == old(instanceNames) && instantiated == old(instantiated)
    {
      if !HasName(cls.name) {
        return Raised("Tool class " + cls.className + " must have a 'name' attribute");
      }
      classNames := KeysAfter(classNames, classes, cls.name.value);
      classes := classes[cls.name.value := cls];
      return Ok(cls);
    }

    /**
     * `register_instance`: an instance without a non-empty name raises
     * ValueError and changes nothing; otherwise it is stored under its name,
     * replacing any instance registered there before.
     */
    method RegisterInstance(tool: Tool) returns (r: Result<Tool>)
      requires Valid()
      modifies this
      ensures Valid()
      ensures r.Raised? <==> !HasName(tool.name)
      ensures r.Raised? ==> r.error == "Tool instance must have a 'name' attribute"
                            && instances == old(instances) && instanceNames == old(instanceNames)
      ensures r.Ok? ==> r.value == tool && instances == old(instances)[tool.name.value := tool]
                        && instanceNames == KeysAfter(old(instanceNames), old(instances), tool.name.value)
      ensures classes == old(classes) && classNames == old(classNames) && instantiated == old(instantiated)
    {
      if !HasName(tool.name) {
        return Raised("Tool instance must have a 'name' attribute");
      }
      instanceNames := KeysAfter(instanceNames, instances, tool.name.value);
      instances := instances[tool.name.value := tool];
      return Ok(tool);
    }

    /**
     * `register_tools`: registers the tools in order; the first one without
     * a name raises, and the ones before it stay registered.
     */
    method RegisterTools(tools: seq<Tool>) returns (r: Result<()>)
      requires Valid()
      modifies this
      ensures Valid()
      ensures r.Raised? <==> FirstUnnamed(tools) < |tools|
      ensures (instanceNames, instances) == Registering(old(instanceNames), old(instances), tools[..FirstUnnamed(tools)])
      ensures classes == old(classes) && classNames == old(classNames) && instantiated == old(instantiated)
    {
      var i := 0;
      while i < |tools|
        invariant 0 <= i <= FirstUnnamed(tools)
        invariant Valid()
        invariant (instanceNames, instances) == Registering(old(instanceNames), old(instances), tools[..i])
        invariant classes == old(classes) && classNames == old(classNames) && instantiated == old(instantiated)
      {
        var registered := RegisterInstance(tools[i]);
        if registered.Raised? {
          return Raised(registered.error);
        }
        assert tools[..i + 1][..i] == tools[..i];
        i := i + 1;
      }
      assert tools[..i] == tools;
      return Ok(());
    }

    /**
     * `get_tool`: a registered instance first; otherwise a registered class,
     * instantiated on first use and cached; otherwise None.
     */
    method GetTool(name: string) returns (t: Option<Tool>)
      requires Valid()
      modifies this
      ensures Valid()
      ensures t.Some? <==> name in old(classes) || name in old(instances)
      ensures name in old(instances) ==>
                t == Some(old(instances)[name]) && instances == old(instances)
                && instanceNames == old(instanceNames) && instantiated == old(instantiated)
      ensures name !in old(instances) && name in old(classes) ==>
                t == Some(Tool(Some(name), old(instantiated))) && instances == old(instances)[name := t.value]
                && instanceNames == old(instanceNames) + [name] && instantiated == old(instantiated) + 1
      ensures t.None? ==> instances == old(instances) && instanceNames == old(instanceNames)
                          && instantiated == old(instantiated)
      ensures classes == old(classes) && classNames == old(classNames)
    {
      if name in instances {
        return Some(instances[name]);
      }
      if name in classes {
        var created := Instantiate(name);
        return Some(created);
      }
      return None;
    }

    /** Creates the instance of class `name` and caches it under that name. */
    method Instantiate(name: string) returns (created: Tool)
      requires Valid() && name in classes && name !in instances
      modifies this
      ensures Valid()
      ensures created == Tool(Some(name), old(instantiated))
      ensures instances == old(instances)[name := created] && instanceNames == old(instanceNames) + [name]
      ensures instantiated == old(instantiated) + 1
      ensures classes == old(classes) && classNames == old(classNames)
    {
      created := Tool(classes[name].name, instantiated);
      instanceNames := instanceNames + [name];
      instances := instances[name := created];
      instantiated := instantiated + 1;
    }

    /** `list_tool_names`: every registered name once, classes' names first. */
    function ListToolNames(): (names: seq<string>)
      requires Valid()
      reads this
      ensures NoDup(names)
      ensures forall n :: n in names <==> n in classes || n in instances
    {
      var extra := Missing(instanceNames, classes);
      assert forall i, j :: 0 <= i < |classNames| && 0 <= j < |extra| ==> classNames[i] != extra[j] by {
        forall i, j | 0 <= i < |classNames| && 0 <= j < |extra| ensures classNames[i] != extra[j] {
          assert extra[j] in extra;
        }
      }
      classNames + extra
    }

    /**
     * The state after the first `i` classes were visited by `list_tools`,
     * starting from the instance table `names0`/`instances0` and the count
     * `instantiated0`: `created` are the classes instantiated so far.
     */
    ghost predicate Filling(i: int, created: seq<string>, names0: seq<string>, instances0: map<string, Tool>, instantiated0: nat)
      reads this
    {
      0 <= i <= |classNames| && Valid()
      && created == Missing(classNames[..i], instances0)
      && instanceNames == names0 + created
      && (forall k :: k in instances0 ==> k in instances && instances[k] == instances0[k])
      && instantiated == instantiated0 + |created|
      && (forall j :: 0 <= j < |created| ==> instances[created[j]] == Tool(Some(created[j]), instantiated0 + j))
      && (forall k :: k in instances <==> k in instances0 || k in created)
    }

    /** One iteration of the `list_tools` loop: instantiate class `i` if it has no instance. */
    method FillStep(i: int, ghost created: seq<string>, ghost names0: seq<string>,
                    ghost instances0: map<string, Tool>, ghost instantiated0: nat) returns (ghost created': seq<string>)
      requires i < |classNames| && Filling(i, created, names0, instances0, instantiated0)
      modifies this
      ensures Filling(i + 1, created', names0, instances0, instantiated0)
      ensures classes == old(classes) && classNames == old(classNames)
    {
      var name := classNames[i];
      MissingStep(classNames, instances0, i);
      assert name !in created by {
        assert name !in classNames[..i];
      }
      created' := created;
      if name !in instances {
        var tool := Instantiate(name);
        created' := created + [name];
        forall j | 0 <= j < |created'|
          ensures instances[created'[j]] == Tool(Some(created'[j]), instantiated0 + j)
        {
          if j < |created| {
            assert created'[j] == created[j] != name;
          }
        }
      }
    }

    /**
     * `list_tools`: instantiates, in class order, every class that has no
     * instance yet, then returns all instances in insertion order.
     */
    method ListTools() returns (tools: seq<Tool>)
      requires Valid()
      modifies this
      ensures Valid()
      ensures instanceNames == old(instanceNames) + Missing(old(classNames), old(instances))
      ensures forall k :: k in old(instances) ==> k in instances && instances[k] == old(instances)[k]
      ensures var created := Missing(old(classNames), old(instances));
              instantiated == old(instantiated) + |created|
              && forall j :: 0 <= j < |created| ==> instances[created[j]] == Tool(Some(created[j]), old(instantiated) + j)
      ensures forall k :: k in instances <==> k in old(instances) || k in old(classes)
      ensures tools == Values(instanceNames, instances)
      ensures classes == old(classes) && classNames == old(classNames)
    {
      var i := 0;
      ghost var created: seq<string> := [];
      while i < |classNames|
        invariant 0 <= i <= |classNames|
        invariant Filling(i, created, old(instanceNames), old(instances), old(instantiated))
        invariant classes == old(classes) && classNames == old(classNames)
      {
        created := FillStep(i, created, old(instanceNames), old(instances), old(instantiated));
        i := i + 1;
      }
      assert classNames[..i] == old(classNames);
      tools := Values(instanceNames, instances);
    }

    /**
     * `call_tool`: an unknown name gives the not-found text; otherwise the
     * tool `get_tool` finds (for a class, its new and now cached instance)
     * gives its reply, or the execution-error text when it raises. It never
     * raises itself.
     */
    method CallTool(name: string, arguments: Json, invoke: (Tool, Json) -> Result<string>) returns (reply: string)
      requires Valid()
      modifies this
      ensures Valid()
      ensures name !in old(classes) && name !in old(instances) ==> reply == NotFound(name)
      ensures name in old(instances) ==>
                reply == match invoke(old(instances)[name], arguments)
                         case Ok(s) => s
                         case Raised(e) => ExecutionError(name, e)
      ensures name !in old(instances) && name in old(classes) ==>
                reply == match invoke(Tool(Some(name), old(instantiated)), arguments)
                         case Ok(s) => s
                         case Raised(e) => ExecutionError(name, e)
      ensures name in old(instances) ==>
                instances == old(instances) && instanceNames == old(instanceNames) && instantiated == old(instantiated)
      ensures name !in old(instances) && name in old(classes) ==>
                instances == old(instances)[name := Tool(Some(name), old(instantiated))]
                && instanceNames == old(instanceNames) + [name] && instantiated == old(instantiated) + 1
      ensures name !in old(classes) && name !in old(instances) ==>
                instances == old(instances) && instanceNames == old(instanceNames) && instantiated == old(instantiated)
      ensures classes == old(classes) && classNames == old(classNames)
    {
      var tool := GetTool(name);
      if tool.None? {
        return NotFound(name);
      }
      match invoke(tool.value, arguments)
      case Ok(s) => return s;
      case Raised(e) => return ExecutionError(name, e);
    }

    /** `clear`: empties both tables. */
    method Clear()
      requires Valid()
      modifies this
      ensures Valid()
      ensures classNames == [] && classes == map[] && instanceNames == [] && instances == map[]
      ensures instantiated == old(instantiated)
    {
      classNames, classes := [], map[];
      instanceNames, instances := [], map[];
    }
  }

  /**
   * After `list_tools`, every registered class has an instance, and there are
   * as many tools as registered names.
   */
  method ListToolsCoversNames(registry: ToolRegistry) returns (tools: seq<Tool>)
    requires registry.Valid()
    modifies registry
    ensures registry.Valid()
    ensures forall k :: k in registry.classes ==> k in registry.instances
    ensures |tools| == |registry.ListToolNames()|
  {
    tools := registry.ListTools();
    var names := registry.ListToolNames();
    SameElementsSameLength(registry.instanceNames, names);
  }

  /** A second `get_tool` for the same name returns the same object and changes nothing. */
  method GetToolTwice(registry: ToolRegistry, name: string) returns (first: Option<Tool>, second: Option<Tool>)
    requires registry.Valid()
    modifies registry
    ensures first == second
    ensures first.Some? <==> name in old(registry.classes) || name in old(registry.instances)
  {
    first := registry.GetTool(name);
    ghost var instancesAfterFirst := registry.instances;
    second := registry.GetTool(name);
    assert registry.instances == instancesAfterFirst;
  }
}
