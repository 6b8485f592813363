/** The table of declared tools (src/conversion/tool_context.rs). A missing JSON string is the empty string. */
module ToolTable {
  import opened Wrappers
  import opened Text
  import opened SafeNames

  datatype ToolKind = Function | Namespace | Custom | ToolSearch

  datatype ToolSpec = ToolSpec(kind: ToolKind, name: string, chatName: string, namespace: Option<string>)

  /** A declared tool, by the branch of `add_response_tool` that it takes. */
  datatype ToolDecl =
    | BareName(name: string)
    | NotATool
    | NamespaceDecl(name: string, children: Option<seq<string>>)
    | CustomDecl(name: string)
    | ToolSearchDecl
    | FunctionDecl(name: string)

  const TOOL_SEARCH_NAME := "tool_search"

  /** A JSON value of the input; `found` are the tools of an object that is a tool_search_output with a tool list. */
  datatype Value = Scalar | Listed(items: seq<Value>) | Object(found: Option<seq<ToolDecl>>, values: seq<Value>)

  /** The tools found by earlier searches, at any depth of the input and in order. */
  function Searched(value: Value): seq<ToolDecl> {
    match value
    case Scalar => []
    case Listed(items) => SearchedAll(items)
    case Object(found, values) => found.GetOr([]) + SearchedAll(values)
  }

  function SearchedAll(values: seq<Value>): seq<ToolDecl> {
    if values == [] then [] else SearchedAll(values[..|values| - 1]) + Searched(values[|values| - 1])
  }

  /** All tools of a request: those it declares and those its input has found. */
  function RequestTools(tools: Option<seq<ToolDecl>>, input: Option<Value>): seq<ToolDecl> {
    tools.GetOr([]) + if input.Some? then Searched(input.value) else []
  }

  /** A value and all values in it, outer ones first. */
  function Inside(value: Value): seq<Value> {
    [value] + match value
              case Scalar => []
              case Listed(items) => InsideAll(items)
              case Object(_, values) => InsideAll(values)
  }

  function InsideAll(values: seq<Value>): seq<Value> {
    if values == [] then [] else InsideAll(values[..|values| - 1]) + Inside(values[|values| - 1])
  }

  /** The tools that these values list themselves. */
  function ListedBy(values: seq<Value>): seq<ToolDecl> {
    if values == [] then []
    else (if values[0].Object? then values[0].found.GetOr([]) else []) + ListedBy(values[1..])
  }

  lemma {:induction false} ListedByAppend(a: seq<Value>, b: seq<Value>)
    ensures ListedBy(a + b) == ListedBy(a) + ListedBy(b)
  {
    if a == [] {
      assert a + b == b && [] + ListedBy(b) == ListedBy(b);
    } else {
      assert (a + b)[0] == a[0] && (a + b)[1..] == a[1..] + b;
      ListedByAppend(a[1..], b);
      ConcatAssoc(if a[0].Object? then a[0].found.GetOr([]) else [], ListedBy(a[1..]), ListedBy(b));
    }
  }

  /** A request has the tools it declares, then those its input has found. */
  lemma RequestToolsAre(tools: Option<seq<ToolDecl>>, input: Option<Value>)
    ensures var declared, found := tools.GetOr([]), if input.Some? then ListedBy(Inside(input.value)) else [];
            RequestTools(tools, input) == declared + found
  {
    if input.Some? {
      SearchedIsListed(input.value);
    }
  }

  /** The tools found are those that the objects of the value list, at any depth and outer objects first. */
  lemma {:induction false} SearchedIsListed(value: Value)
    ensures Searched(value) == ListedBy(Inside(value))
  {
    var inner: seq<Value> := [];
    match value {
      case Scalar =>
      case Listed(items) =>
        SearchedAllIsListed(items);
        inner := items;
      case Object(_, values) =>
        SearchedAllIsListed(values);
        inner := values;
    }
    ListedByAppend([value], InsideAll(inner));
    assert [value][1..] == [] && Inside(value) == [value] + InsideAll(inner);
    var own: seq<ToolDecl> := if value.Object? then value.found.GetOr([]) else [];
    assert own + [] == own && [] + ListedBy(InsideAll(inner)) == ListedBy(InsideAll(inner));
  }

  lemma {:induction false} SearchedAllIsListed(values: seq<Value>)
    ensures SearchedAll(values) == ListedBy(InsideAll(values))
  {
    if values != [] {
      var n := |values| - 1;
      SearchedAllIsListed(values[..n]);
      SearchedIsListed(values[n]);
      ListedByAppend(InsideAll(values[..n]), Inside(values[n]));
    }
  }

  datatype Table = Table(
    chatTools: seq<string>,
    reverseNames: map<string, string>,
    specs: map<string, ToolSpec>,
    byNamespace: map<(string, string), string>,
    used: set<string>)

  const EMPTY_TABLE := Table([], map[], map[], map[], {})

  function LookupSpec(t: Table, chatName: string): Option<ToolSpec> {
    if chatName in t.specs then Some(t.specs[chatName]) else None
  }

  function RestoreName(t: Table, name: string): string {
    if name in t.reverseNames then t.reverseNames[name] else name
  }

  predicate IsCustom(t: Table, chatName: string) {
    chatName in t.specs && t.specs[chatName].kind == Custom
  }

  // ---------- additions ----------

  function Qualified(namespace: string, name: string): string {
    namespace + "__" + name
  }

  /** One tool added under a new chat name. */
  function Register(t: Table, original: string, kind: ToolKind, name: string, namespace: Option<string>): Table {
    RegisterAs(t, SafeName(t.used, original), original, kind, name, namespace)
  }

  function RegisterAs(t: Table, chatName: string, original: string, kind: ToolKind, name: string,
                      namespace: Option<string>): Table
  {
    Table(
      t.chatTools + [chatName],
      t.reverseNames[chatName := original],
      t.specs[chatName := ToolSpec(kind, name, chatName, namespace)],
      if namespace.Some? then t.byNamespace[(namespace.value, name) := chatName] else t.byNamespace,
      t.used + {chatName})
  }

  function AddFunction(t: Table, name: string): Table {
    if Trim(name) == "" then t else Register(t, Trim(name), Function, name, None)
  }

  function AddCustom(t: Table, name: string): Table {
    if Trim(name) == "" then t else Register(t, Trim(name), Custom, Trim(name), None)
  }

  function AddChild(t: Table, namespace: string, child: string): Table {
    if Trim(child) == "" then t
    else Register(t, Qualified(namespace, child), Namespace, child, Some(namespace))
  }

  function AddChildren(t: Table, namespace: string, children: seq<string>): Table {
    if children == [] then t
    else AddChild(AddChildren(t, namespace, children[..|children| - 1]), namespace, children[|children| - 1])
  }

  function AddTool(t: Table, decl: ToolDecl): Table {
    match decl
    case BareName(name) => AddCustom(t, name)
    case NotATool => t
    case NamespaceDecl(name, children) =>
      if children.None? || Trim(name) == "" then t else AddChildren(t, Trim(name), children.value)
    case CustomDecl(name) => AddCustom(t, name)
    case ToolSearchDecl => Register(t, TOOL_SEARCH_NAME, ToolSearch, TOOL_SEARCH_NAME, None)
    case FunctionDecl(name) => AddFunction(t, name)
  }

  function AddTools(t: Table, decls: seq<ToolDecl>): Table {
    if decls == [] then t
    else AddTool(AddTools(t, decls[..|decls| - 1]), decls[|decls| - 1])
  }

  lemma {:induction false} AddToolsTwo(t: Table, one: seq<ToolDecl>, two: seq<ToolDecl>)
    ensures AddTools(t, one + two) == AddTools(AddTools(t, one), two)
    decreases |two|
  {
    hide AddTool;
    if two == [] {
      assert one + two == one;
    } else {
      assert (one + two)[..|one + two| - 1] == one + two[..|two| - 1];
      AddToolsTwo(t, one, two[..|two| - 1]);
    }
  }

  // ---------- what every table keeps ----------

  /** One legal name for each chat tool, and both name maps are keyed by exactly these names. */
  ghost predicate NamesAgree(t: Table) {
    && Distinct(t.chatTools)
    && (forall c :: c in t.chatTools <==> c in t.used)
    && t.specs.Keys == t.used && t.reverseNames.Keys == t.used
    && (forall c :: c in t.used ==> IsName(c))
    && |t.used| == |t.chatTools|
    && (|t.used| < 0x7FFF_FFF0 ==> forall c :: c in t.used ==> |c| <= MAX_LENGTH)
  }

  function OriginalOf(spec: ToolSpec): string {
    if spec.namespace.Some? then Qualified(spec.namespace.value, spec.name) else Trim(spec.name)
  }

  ghost predicate SpecsAgree(t: Table) {
    forall c :: c in t.specs ==>
      t.specs[c].chatName == c && c in t.reverseNames && t.reverseNames[c] == OriginalOf(t.specs[c])
  }

  ghost predicate NamespacesAgree(t: Table) {
    forall key :: key in t.byNamespace ==>
      var c := t.byNamespace[key];
      c in t.specs && t.specs[c].namespace == Some(key.0) && t.specs[c].name == key.1
  }

  ghost predicate Consistent(t: Table) {
    NamesAgree(t) && SpecsAgree(t) && NamespacesAgree(t)
  }

  /** Nothing already declared is lost. */
  ghost predicate Extends(t: Table, u: Table) {
    && t.chatTools <= u.chatTools
    && (forall c :: c in t.specs ==> c in u.specs && u.specs[c] == t.specs[c])
    && (forall c :: c in t.reverseNames ==> c in u.reverseNames && u.reverseNames[c] == t.reverseNames[c])
    && (forall key :: key in t.byNamespace ==> key in u.byNamespace)
  }

  lemma TrimTrim(s: string)
    ensures Trim(Trim(s)) == Trim(s)
  {
    var t := TrimStart(s);
    var r := Trim(s);
    if r != "" {
      assert r[0] == t[0];
      assert TrimStart(r) == r;
    }
  }

  lemma ExtendsTransitive(t: Table, u: Table, v: Table)
    requires Extends(t, u) && Extends(u, v)
    ensures Extends(t, v)
  {
  }

  /** Registering under a new legal name. */
  lemma RegisterKeeps(t: Table, original: string, kind: ToolKind, name: string, namespace: Option<string>)
    requires Consistent(t)
    requires original == if namespace.Some? then Qualified(namespace.value, name) else Trim(name)
    ensures Consistent(Register(t, original, kind, name, namespace))
    ensures Extends(t, Register(t, original, kind, name, namespace))
    ensures HasOriginal(Register(t, original, kind, name, namespace), original)
    ensures namespace.Some? ==> (namespace.value, name) in Register(t, original, kind, name, namespace).byNamespace
  {
    hide Extends, SafeName;
    SafeNameIsFreshAndLegal(t.used, original);
    RegisterAsKeeps(t, SafeName(t.used, original), original, kind, name, namespace);
  }

  lemma RegisterAsKeeps(t: Table, chatName: string, original: string, kind: ToolKind, name: string,
                        namespace: Option<string>)
    requires Consistent(t) && chatName !in t.used && IsName(chatName)
    requires |t.used| < 0x7FFF_FFF0 ==> |chatName| <= MAX_LENGTH
    requires original == if namespace.Some? then Qualified(namespace.value, name) else Trim(name)
    ensures var u := RegisterAs(t, chatName, original, kind, name, namespace);
            && Consistent(u) && Extends(t, u) && HasOriginal(u, original)
            && (namespace.Some? ==> (namespace.value, name) in u.byNamespace)
  {
    hide IsName, Qualified, Trim, Distinct, SpecsAgree, NamespacesAgree, Extends;
    RegisterAsExtends(t, chatName, original, kind, name, namespace);
    RegisterAsKeepsNames(t, chatName, original, kind, name, namespace);
    RegisterAsKeepsSpecs(t, chatName, original, kind, name, namespace);
    RegisterAsKeepsNamespaces(t, chatName, original, kind, name, namespace);
    assert RegisterAs(t, chatName, original, kind, name, namespace).reverseNames[chatName] == original;
  }

  lemma RegisterAsKeepsNames(t: Table, chatName: string, original: string, kind: ToolKind, name: string,
                             namespace: Option<string>)
    requires NamesAgree(t) && chatName !in t.used && IsName(chatName)
    requires |t.used| < 0x7FFF_FFF0 ==> |chatName| <= MAX_LENGTH
    ensures NamesAgree(RegisterAs(t, chatName, original, kind, name, namespace))
  {
    hide IsName, Distinct;
    var u := RegisterAs(t, chatName, original, kind, name, namespace);
    DistinctSnoc(t.chatTools, chatName);
    SameNames(t.chatTools, t.used, chatName);
    assert u.specs.Keys == t.specs.Keys + {chatName} && u.reverseNames.Keys == t.reverseNames.Keys + {chatName};
  }

  lemma RegisterAsExtends(t: Table, chatName: string, original: string, kind: ToolKind, name: string,
                          namespace: Option<string>)
    requires chatName !in t.specs && chatName !in t.reverseNames
    ensures Extends(t, RegisterAs(t, chatName, original, kind, name, namespace))
  {
  }

  lemma SameNames(names: seq<string>, used: set<string>, x: string)
    requires (forall c :: c in names <==> c in used) && |used| == |names| && x !in used
    ensures (forall c :: c in names + [x] <==> c in used + {x}) && |used + {x}| == |names + [x]|
  {
  }

  lemma DistinctSnoc(s: seq<string>, x: string)
    requires Distinct(s) && x !in s
    ensures Distinct(s + [x])
  {
  }

  lemma RegisterAsKeepsSpecs(t: Table, chatName: string, original: string, kind: ToolKind, name: string,
                             namespace: Option<string>)
    requires SpecsAgree(t)
    requires original == if namespace.Some? then Qualified(namespace.value, name) else Trim(name)
    ensures SpecsAgree(RegisterAs(t, chatName, original, kind, name, namespace))
  {
    hide Qualified, Trim;
  }

  lemma RegisterAsKeepsNamespaces(t: Table, chatName: string, original: string, kind: ToolKind, name: string,
                                  namespace: Option<string>)
    requires NamespacesAgree(t) && chatName !in t.specs
    ensures NamespacesAgree(RegisterAs(t, chatName, original, kind, name, namespace))
  {
  }

  lemma {:induction false} AddChildrenKeeps(t: Table, namespace: string, children: seq<string>)
    requires Consistent(t)
    ensures var next := AddChildren(t, namespace, children);
            && Consistent(next) && Extends(t, next)
            && forall child :: child in children && Trim(child) != "" ==> (namespace, child) in next.byNamespace
  {
    hide Consistent, Register, Trim;
    if children != [] {
      var n := |children| - 1;
      AddChildrenKeeps(t, namespace, children[..n]);
      var before := AddChildren(t, namespace, children[..n]);
      if Trim(children[n]) != "" {
        RegisterKeeps(before, Qualified(namespace, children[n]), Namespace, children[n], Some(namespace));
        ExtendsTransitive(t, before, AddChildren(t, namespace, children));
      }
      assert children == children[..n] + [children[n]];
    }
  }

  lemma AddSearchKeeps(t: Table, name: string)
    requires Consistent(t) && name == TOOL_SEARCH_NAME
    ensures var u := Register(t, name, ToolSearch, name, None);
            Consistent(u) && Extends(t, u) && HasOriginal(u, name)
  {
    hide Consistent, Extends, Register, HasOriginal, Trim;
    SearchNameIsTrimmed(name);
    RegisterKeeps(t, name, ToolSearch, name, None);
  }

  lemma SearchNameIsTrimmed(name: string)
    requires name == TOOL_SEARCH_NAME
    ensures Trim(name) == name
  {
    assert name[0] == 't' && name[|name| - 1] == 'h';
    TrimsToItself(name);
  }

  lemma AddCustomKeeps(t: Table, name: string)
    requires Consistent(t)
    ensures var u := AddCustom(t, name);
            Consistent(u) && Extends(t, u) && (Trim(name) != "" ==> HasOriginal(u, Trim(name)))
  {
    hide Consistent, Register, HasOriginal;
    if Trim(name) != "" {
      TrimTrim(name);
      RegisterKeeps(t, Trim(name), Custom, Trim(name), None);
    }
  }

  ghost predicate HasOriginal(t: Table, original: string) {
    exists c :: c in t.reverseNames && t.reverseNames[c] == original
  }

  /** The names a declaration introduces are in the table. */
  ghost predicate Declared(t: Table, decl: ToolDecl) {
    match decl
    case BareName(name) => Trim(name) != "" ==> HasOriginal(t, Trim(name))
    case NotATool => true
    case NamespaceDecl(name, children) =>
      Trim(name) != "" && children.Some? ==>
        forall child :: child in children.value && Trim(child) != "" ==> (Trim(name), child) in t.byNamespace
    case CustomDecl(name) => Trim(name) != "" ==> HasOriginal(t, Trim(name))
    case ToolSearchDecl => HasOriginal(t, TOOL_SEARCH_NAME)
    case FunctionDecl(name) => Trim(name) != "" ==> HasOriginal(t, Trim(name))
  }

  lemma DeclaredStays(t: Table, u: Table, decl: ToolDecl)
    requires Declared(t, decl) && Extends(t, u)
    ensures Declared(u, decl)
  {
  }

  lemma EmptyIsConsistent()
    ensures Consistent(EMPTY_TABLE)
  {
  }

  /** After any sequence of additions the names of the chat tools are distinct and are exactly the keys of both name
      maps, and every declared tool can be found. */
  lemma {:induction false} TableIsConsistent(decls: seq<ToolDecl>)
    ensures Consistent(AddTools(EMPTY_TABLE, decls))
    ensures forall d :: d in decls ==> Declared(AddTools(EMPTY_TABLE, decls), d)
  {
    hide Consistent, Register, Trim, HasOriginal;
    EmptyIsConsistent();
    if decls != [] {
      var n := |decls| - 1;
      TableIsConsistent(decls[..n]);
      var before := AddTools(EMPTY_TABLE, decls[..n]);
      var decl := decls[n];
      var after := AddTool(before, decl);
      assert Consistent(after) && Extends(before, after) && Declared(after, decl) by {
        match decl
        case BareName(name) => AddCustomKeeps(before, name);
        case NotATool =>
        case NamespaceDecl(name, children) =>
          if children.Some? && Trim(name) != "" {
            AddChildrenKeeps(before, Trim(name), children.value);
          }
        case CustomDecl(name) => AddCustomKeeps(before, name);
        case ToolSearchDecl => AddSearchKeeps(before, TOOL_SEARCH_NAME);
        case FunctionDecl(name) =>
          if Trim(name) != "" {
            RegisterKeeps(before, Trim(name), Function, name, None);
          }
      }
      forall d | d in decls[..n] ensures Declared(after, d) {
        DeclaredStays(before, after, d);
      }
      assert decls == decls[..n] + [decl];
    }
  }

  // ---------- names on the way out ----------

  /** The results `chat_name_for_response_function` may return; the reverse map is searched in no particular order. */
  ghost predicate IsChatNameFor(t: Table, name: string, namespace: Option<string>, chatName: string) {
    if namespace.Some? && namespace.value != "" then
      if (namespace.value, name) in t.byNamespace then chatName == t.byNamespace[(namespace.value, name)]
      else chatName == Take(Qualified(namespace.value, name), MAX_LENGTH)
    else if HasOriginal(t, name) then chatName in t.reverseNames && t.reverseNames[chatName] == name
    else chatName == name
  }

  /** A declared child of a namespace is called by a chat name whose specification carries that namespace and name. */
  lemma NamespacedNameRoundTrips(decls: seq<ToolDecl>, decl: ToolDecl, child: string, chatName: string)
    requires decl in decls && decl.NamespaceDecl? && decl.children.Some?
    requires Trim(decl.name) != "" && child in decl.children.value && Trim(child) != ""
    requires IsChatNameFor(AddTools(EMPTY_TABLE, decls), child, Some(Trim(decl.name)), chatName)
    ensures var spec := LookupSpec(AddTools(EMPTY_TABLE, decls), chatName);
            spec.Some? && spec.value.namespace == Some(Trim(decl.name)) && spec.value.name == child
  {
    TableIsConsistent(decls);
    assert Declared(AddTools(EMPTY_TABLE, decls), decl);
  }

  /** The name of a declaration without namespace, if it has one. */
  function PlainName(decl: ToolDecl): Option<string> {
    match decl
    case BareName(name) => if Trim(name) == "" then None else Some(Trim(name))
    case CustomDecl(name) => if Trim(name) == "" then None else Some(Trim(name))
    case FunctionDecl(name) => if Trim(name) == "" then None else Some(Trim(name))
    case ToolSearchDecl => Some(TOOL_SEARCH_NAME)
    case _ => None
  }

  /** A declared name without namespace is restored from any chat name it may be sent under. */
  lemma {:induction false} PlainNameRoundTrips(decls: seq<ToolDecl>, decl: ToolDecl, name: string, chatName: string)
    requires decl in decls && PlainName(decl) == Some(name)
    requires IsChatNameFor(AddTools(EMPTY_TABLE, decls), name, None, chatName)
    ensures RestoreName(AddTools(EMPTY_TABLE, decls), chatName) == name
  {
    hide Consistent, Trim, AddTools;
    TableIsConsistent(decls);
    assert Declared(AddTools(EMPTY_TABLE, decls), decl);
  }

  // ---------- the mutable table ----------

  class ToolContext {
    var chatTools: seq<string>
    var reverseNames: map<string, string>
    var specsByChatName: map<string, ToolSpec>
    var namespaceNameToChatName: map<(string, string), string>
    var used: set<string>

    function Model(): Table
      reads this
    {
      Table(chatTools, reverseNames, specsByChatName, namespaceNameToChatName, used)
    }

    constructor ()
      ensures Model() == EMPTY_TABLE
    {
      chatTools, reverseNames, specsByChatName, namespaceNameToChatName, used := [], map[], map[], map[], {};
    }

    /** The loop stops because only `|used| + 1` attempts can fail. */
    method AllocateSafeName(original: string) returns (candidate: string)
      modifies this`used
      ensures candidate == SafeName(old(used), original)
      ensures candidate !in old(used) && IsName(candidate)
      ensures used == old(used) + {candidate}
    {
      var base := Base(original);
      candidate := base;
      var suffix := 2;
      ghost var attempts: nat := 0;
      while candidate in used
        invariant used == old(used)
        invariant suffix == attempts + 2
        invariant candidate == Candidate(base, attempts)
        invariant AllUsed(used, base, attempts)
        decreases |used| + 1 - attempts
      {
        AttemptsBound(used, base, attempts + 1);
        var tail := "_" + Decimal(suffix);
        var keep := if |tail| <= MAX_LENGTH then MAX_LENGTH - |tail| else 0;
        candidate := Take(base, keep) + tail;
        suffix := suffix + 1;
        attempts := attempts + 1;
      }
      FirstFreeIs(used, base, attempts);
      SafeNameIsFreshAndLegal(used, original);
      used := used + {candidate};
    }

    method AddChatTool(original: string, spec: ToolSpec)
      modifies this`reverseNames, this`specsByChatName, this`chatTools
      ensures reverseNames == old(reverseNames)[spec.chatName := original]
      ensures specsByChatName == old(specsByChatName)[spec.chatName := spec]
      ensures chatTools == old(chatTools) + [spec.chatName]
    {
      reverseNames := reverseNames[spec.chatName := original];
      specsByChatName := specsByChatName[spec.chatName := spec];
      chatTools := chatTools + [spec.chatName];
    }

    method AddFunctionTool(name: string, originalName: Option<string>, namespace: Option<string>)
      requires namespace.Some? <==> originalName.Some?
      requires originalName.Some? ==> originalName.value != ""
      modifies this
      ensures Model() == if namespace.Some? then Register(old(Model()), originalName.value, Namespace, name, namespace)
                         else AddFunction(old(Model()), name)
    {
      hide SafeName, Trim;
      var original := originalName.GetOr(Trim(name));
      if original == "" {
        return;
      }
      var chatName := AllocateSafeName(original);
      var spec := ToolSpec(if namespace.Some? then Namespace else Function, name, chatName, namespace);
      if namespace.Some? {
        namespaceNameToChatName := namespaceNameToChatName[(namespace.value, name) := chatName];
      }
      AddChatTool(original, spec);
    }

    method AddCustomTool(name: string)
      modifies this
      ensures Model() == AddCustom(old(Model()), name)
    {
      var original := Trim(name);
      if original == "" {
        return;
      }
      var chatName := AllocateSafeName(original);
      AddChatTool(original, ToolSpec(Custom, original, chatName, None));
    }

    method AddToolSearch()
      modifies this
      ensures Model() == Register(old(Model()), TOOL_SEARCH_NAME, ToolSearch, TOOL_SEARCH_NAME, None)
    {
      hide SafeName;
      var chatName := AllocateSafeName(TOOL_SEARCH_NAME);
      AddChatTool(TOOL_SEARCH_NAME, ToolSpec(ToolSearch, TOOL_SEARCH_NAME, chatName, None));
    }

    method AddNamespace(name: string, children: Option<seq<string>>)
      modifies this
      ensures Model() == AddTool(old(Model()), NamespaceDecl(name, children))
    {
      hide Register, Trim;
      var namespace := Trim(name);
      if children.None? || namespace == "" {
        return;
      }
      for i := 0 to |children.value|
        invariant Model() == AddChildren(old(Model()), namespace, children.value[..i])
      {
        var child := children.value[i];
        assert children.value[..i + 1][..i] == children.value[..i];
        if Trim(child) != "" {
          AddFunctionTool(child, Some(Qualified(namespace, child)), Some(namespace));
        }
      }
      assert children.value[..|children.value|] == children.value;
    }

    method AddResponseTool(decl: ToolDecl)
      modifies this
      ensures Model() == AddTool(old(Model()), decl)
    {
      hide Register, Trim, AddChildren;
      match decl {
        case BareName(name) => AddCustomTool(name);
        case NotATool =>
        case NamespaceDecl(name, children) => AddNamespace(name, children);
        case CustomDecl(name) => AddCustomTool(name);
        case ToolSearchDecl => AddToolSearch();
        case FunctionDecl(name) => AddFunctionTool(name, None, None);
      }
    }

    method AddAll(decls: seq<ToolDecl>)
      modifies this
      ensures Model() == AddTools(old(Model()), decls)
    {
      for i := 0 to |decls|
        invariant Model() == AddTools(old(Model()), decls[..i])
      {
        assert decls[..i + 1][..i] == decls[..i];
        AddResponseTool(decls[i]);
      }
      assert decls[..|decls|] == decls;
    }

    method CollectToolSearchOutputTools(value: Value)
      modifies this
      ensures Model() == AddTools(old(Model()), Searched(value))
      decreases value
    {
      hide AddTool;
      match value {
        case Scalar =>
        case Listed(items) =>
          for i := 0 to |items|
            invariant Model() == AddTools(old(Model()), SearchedAll(items[..i]))
          {
            assert items[..i + 1][..i] == items[..i];
            AddToolsTwo(old(Model()), SearchedAll(items[..i]), Searched(items[i]));
            CollectToolSearchOutputTools(items[i]);
          }
          assert items[..|items|] == items;
        case Object(found, values) =>
          if found.Some? {
            AddAll(found.value);
          }
          assert found.GetOr([]) + [] == found.GetOr([]);
          for i := 0 to |values|
            invariant Model() == AddTools(old(Model()), found.GetOr([]) + SearchedAll(values[..i]))
          {
            assert values[..i + 1][..i] == values[..i];
            ConcatAssoc(found.GetOr([]), SearchedAll(values[..i]), Searched(values[i]));
            AddToolsTwo(old(Model()), found.GetOr([]) + SearchedAll(values[..i]), Searched(values[i]));
            CollectToolSearchOutputTools(values[i]);
          }
          assert values[..|values|] == values;
      }
    }

    method BuildWithInput(tools: Option<seq<ToolDecl>>, input: Option<Value>)
      requires Model() == EMPTY_TABLE
      modifies this
      ensures Model() == AddTools(EMPTY_TABLE, RequestTools(tools, input))
    {
      if tools.Some? {
        AddAll(tools.value);
      }
      assert tools.GetOr([]) + [] == tools.GetOr([]);
      if input.Some? {
        AddToolsTwo(EMPTY_TABLE, tools.GetOr([]), Searched(input.value));
        CollectToolSearchOutputTools(input.value);
      }
    }

    method ChatNameForResponseFunction(name: string, namespace: Option<string>) returns (chatName: string)
      ensures IsChatNameFor(Model(), name, namespace, chatName)
    {
      if namespace.Some? && namespace.value != "" {
        if (namespace.value, name) in namespaceNameToChatName {
          return namespaceNameToChatName[(namespace.value, name)];
        }
        return Take(Qualified(namespace.value, name), MAX_LENGTH);
      }
      var safeNames := reverseNames.Keys;
      while safeNames != {}
        invariant safeNames <= reverseNames.Keys
        invariant forall c :: c in reverseNames && reverseNames[c] == name ==> c in safeNames
        decreases safeNames
      {
        var safe :| safe in safeNames;
        if reverseNames[safe] == name {
          return safe;
        }
        safeNames := safeNames - {safe};
      }
      return name;
    }
  }

  lemma FirstFreeIs(used: set<string>, base: string, k: nat)
    requires AllUsed(used, base, k) && Candidate(base, k) !in used
    ensures FirstFree(used, base, 0) == k
  {
  }
}
