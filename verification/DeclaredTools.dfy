/** Every declared tool gets a chat name of its own, and a call under that name comes back as a call of that tool. */
module DeclaredTools {
  import opened Wrappers
  import opened Text
  import opened SafeNames
  import opened ToolTable
  import opened Items

  /** A tool the client can call, as the client names it. */
  datatype Entry = Entry(kind: ToolKind, name: string, namespace: Option<string>)

  function Children(namespace: string, children: seq<string>): seq<Entry> {
    if children == [] then []
    else
      var last := children[|children| - 1];
      Children(namespace, children[..|children| - 1])
      + if Trim(last) == "" then [] else [Entry(Namespace, last, Some(namespace))]
  }

  /** The tools of one declaration; nameless ones are dropped. */
  function Entries(decl: ToolDecl): seq<Entry> {
    match decl
    case BareName(name) => if Trim(name) == "" then [] else [Entry(Custom, Trim(name), None)]
    case NotATool => []
    case NamespaceDecl(name, children) =>
      if children.None? || Trim(name) == "" then [] else Children(Trim(name), children.value)
    case CustomDecl(name) => if Trim(name) == "" then [] else [Entry(Custom, Trim(name), None)]
    case ToolSearchDecl => [Entry(ToolSearch, TOOL_SEARCH_NAME, None)]
    case FunctionDecl(name) => if Trim(name) == "" then [] else [Entry(Function, name, None)]
  }

  function AllEntries(decls: seq<ToolDecl>): seq<Entry> {
    if decls == [] then [] else AllEntries(decls[..|decls| - 1]) + Entries(decls[|decls| - 1])
  }

  /** The name under which a tool is registered, before it is made safe. */
  function Original(entry: Entry): string {
    if entry.namespace.Some? then entry.namespace.value + "__" + entry.name else Trim(entry.name)
  }

  /** Exactly the children of namespaces have one, and it is not empty. */
  predicate IsEntry(entry: Entry) {
    && (entry.kind == Namespace <==> entry.namespace.Some?)
    && (entry.namespace.Some? ==> entry.namespace.value != "")
  }

  /** The first tool whose name reads "tool_search" when made safe. */
  function FirstSearch(entries: seq<Entry>): Option<Entry> {
    if entries == [] then None
    else
      var before, last := FirstSearch(entries[..|entries| - 1]), entries[|entries| - 1];
      if before.Some? then before else if Base(Original(last)) == TOOL_SEARCH_NAME then Some(last) else None
  }

  /** The chat tools are these, one for one and in order. */
  ghost predicate Lists(t: Table, entries: seq<Entry>) {
    && |t.chatTools| == |entries| && Distinct(t.chatTools)
    && (forall c :: c in t.chatTools <==> c in t.used) && t.specs.Keys == t.used
    && (forall i :: 0 <= i < |entries| ==> IsListed(t, t.chatTools[i], entries[i]) && IsEntry(entries[i]))
  }

  /** The tool under the chat name "tool_search", and every child by its namespace. */
  ghost predicate Finds(t: Table, entries: seq<Entry>) {
    && (match FirstSearch(entries)
        case Some(entry) => IsListed(t, TOOL_SEARCH_NAME, entry)
        case None => TOOL_SEARCH_NAME !in t.specs)
    && forall i :: 0 <= i < |entries| && entries[i].namespace.Some? ==>
         (entries[i].namespace.value, entries[i].name) in t.byNamespace
  }

  ghost predicate IsListed(t: Table, chatName: string, entry: Entry) {
    chatName in t.specs && t.specs[chatName] == ToolSpec(entry.kind, entry.name, chatName, entry.namespace)
  }

  lemma RegisterLists(t: Table, entries: seq<Entry>, original: string, entry: Entry)
    requires Lists(t, entries) && Finds(t, entries) && IsEntry(entry) && original == Original(entry)
    ensures var u := Register(t, original, entry.kind, entry.name, entry.namespace);
            Lists(u, entries + [entry]) && Finds(u, entries + [entry])
  {
    hide SafeName, Distinct, Base, Qualified, Trim, Lists, Finds;
    SafeNameIsFreshAndLegal(t.used, original);
    SafeNameIs(t.used, original, TOOL_SEARCH_NAME);
    var chatName := SafeName(t.used, original);
    assert t.specs.Keys == t.used by { ListedKeys(t, entries); }
    ListsMore(t, entries, chatName, original, entry);
    FindsMore(t, entries, chatName, original, entry);
  }

  lemma ListedKeys(t: Table, entries: seq<Entry>)
    requires Lists(t, entries)
    ensures t.specs.Keys == t.used
  {
  }

  lemma ListsMore(t: Table, entries: seq<Entry>, chatName: string, original: string, entry: Entry)
    requires Lists(t, entries) && IsEntry(entry) && chatName !in t.used
    ensures Lists(RegisterAs(t, chatName, original, entry.kind, entry.name, entry.namespace), entries + [entry])
  {
    hide Distinct;
    DistinctSnoc(t.chatTools, chatName);
    var u, all := RegisterAs(t, chatName, original, entry.kind, entry.name, entry.namespace), entries + [entry];
    assert u.specs.Keys == t.specs.Keys + {chatName};
    forall i | 0 <= i < |entries| ensures IsListed(u, u.chatTools[i], all[i]) && IsEntry(all[i]) {
      assert t.chatTools[i] in t.chatTools;
      assert IsListed(t, t.chatTools[i], entries[i]);
    }
  }

  lemma FindsMore(t: Table, entries: seq<Entry>, chatName: string, original: string, entry: Entry)
    requires Finds(t, entries) && t.specs.Keys == t.used && chatName !in t.used && original == Original(entry)
    requires chatName == TOOL_SEARCH_NAME <==> Base(original) == TOOL_SEARCH_NAME && TOOL_SEARCH_NAME !in t.used
    ensures Finds(RegisterAs(t, chatName, original, entry.kind, entry.name, entry.namespace), entries + [entry])
  {
    hide Base, Original;
    var all := entries + [entry];
    assert all[..|all| - 1] == entries && all[|all| - 1] == entry;
  }

  lemma {:induction false} ChildrenListed(t: Table, entries: seq<Entry>, namespace: string, children: seq<string>)
    requires Lists(t, entries) && Finds(t, entries) && namespace != ""
    ensures var u, all := AddChildren(t, namespace, children), entries + Children(namespace, children);
            Lists(u, all) && Finds(u, all)
  {
    hide Lists, Finds, Register, Trim;
    if children == [] {
      assert entries + [] == entries;
    } else {
      var n := |children| - 1;
      var before, known := AddChildren(t, namespace, children[..n]), Children(namespace, children[..n]);
      ChildrenListed(t, entries, namespace, children[..n]);
      if Trim(children[n]) == "" {
        assert known + [] == known;
      } else {
        var entry := Entry(Namespace, children[n], Some(namespace));
        RegisterLists(before, entries + known, Qualified(namespace, children[n]), entry);
        ConcatAssoc(entries, known, [entry]);
      }
    }
  }

  lemma DeclListed(t: Table, entries: seq<Entry>, decl: ToolDecl)
    requires Lists(t, entries) && Finds(t, entries)
    ensures Lists(AddTool(t, decl), entries + Entries(decl)) && Finds(AddTool(t, decl), entries + Entries(decl))
  {
    hide Lists, Finds, Register, Trim, Qualified;
    assert entries + [] == entries;
    match decl
    case BareName(name) =>
      TrimTrim(name);
      RegisterLists(t, entries, Trim(name), Entry(Custom, Trim(name), None));
    case NotATool =>
    case NamespaceDecl(name, children) =>
      if children.Some? && Trim(name) != "" {
        ChildrenListed(t, entries, Trim(name), children.value);
      }
    case CustomDecl(name) =>
      TrimTrim(name);
      RegisterLists(t, entries, Trim(name), Entry(Custom, Trim(name), None));
    case ToolSearchDecl =>
      SearchNameIsTrimmed(TOOL_SEARCH_NAME);
      RegisterLists(t, entries, TOOL_SEARCH_NAME, Entry(ToolSearch, TOOL_SEARCH_NAME, None));
    case FunctionDecl(name) => RegisterLists(t, entries, Trim(name), Entry(Function, name, None));
  }

  /** After any declarations the chat tools are the declared tools, one for one and in order, under distinct names. */
  lemma {:induction false} ToolsAreListed(decls: seq<ToolDecl>)
    ensures Lists(AddTools(EMPTY_TABLE, decls), AllEntries(decls))
    ensures Finds(AddTools(EMPTY_TABLE, decls), AllEntries(decls))
  {
    hide AddTool, Entries;
    if decls != [] {
      var n := |decls| - 1;
      ToolsAreListed(decls[..n]);
      DeclListed(AddTools(EMPTY_TABLE, decls[..n]), AllEntries(decls[..n]), decls[n]);
    }
  }

  /** The item of a call of this tool: function calls and custom calls carry the tool's own name and namespace. */
  ghost predicate IsCallOf(entry: Entry, codec: Codec, item: Item, callId: string, arguments: string) {
    match entry.kind
    case Custom =>
      && item.CustomCallItem? && item.callId == callId && item.name == entry.name
      && item.input == (if Trim(arguments) == "" then "" else codec.inputField(arguments))
    case ToolSearch =>
      && item.SearchCallItem? && item.callId == callId
      && item.arguments == (if Trim(arguments) == "" then "{}" else codec.objectOf(arguments))
    case _ =>
      item.FunctionCallItem? && item.callId == callId && item.name == entry.name
      && item.namespace == entry.namespace.GetOr("") && item.arguments == arguments
  }

  /** A call that the upstream makes under the chat name of the i-th declared tool comes back as a call of that tool,
      even when sanitising or truncation made names clash; under a name that no tool has it comes back unchanged. */
  lemma CallsComeBackAsDeclared(decls: seq<ToolDecl>, codec: Codec, id: ItemId, status: Status, callId: string,
                                chatName: string, arguments: string, reasoningCopy: string)
    ensures var t := AddTools(EMPTY_TABLE, decls);
            var item := ToolItem(t, codec, id, status, callId, chatName, arguments, reasoningCopy);
            && |t.chatTools| == |AllEntries(decls)|
            && (forall i :: 0 <= i < |t.chatTools| && t.chatTools[i] == chatName ==>
                  IsCallOf(AllEntries(decls)[i], codec, item, callId, arguments))
            && (chatName !in t.chatTools ==>
                item == FunctionCallItem(id, status, callId, chatName, "", arguments, reasoningCopy))
  {
    hide AddTools, AllEntries, Consistent, Trim, Finds, IsEntry;
    ToolsAreListed(decls);
    TableIsConsistent(decls);
    var t, entries := AddTools(EMPTY_TABLE, decls), AllEntries(decls);
    ConsistentNames(t);
    forall i | 0 <= i < |t.chatTools| && t.chatTools[i] == chatName
      ensures IsCallOf(entries[i], codec, ToolItem(t, codec, id, status, callId, chatName, arguments, reasoningCopy),
                       callId, arguments)
    {
      assert IsListed(t, t.chatTools[i], entries[i]);
    }
  }

  lemma ConsistentNames(t: Table)
    requires Consistent(t)
    ensures t.specs.Keys == t.used && t.reverseNames.Keys == t.used && forall c :: c in t.chatTools <==> c in t.used
  {
  }

  lemma {:induction false} NameIsTrimmed(s: string)
    requires IsName(s)
    ensures Trim(s) == s
  {
    assert s[0] in s && s[|s| - 1] in s;
  }

  /** Two functions of one full-length name that ends with "_2" get that name and the one with "_3". */
  lemma SameNameTwice(name: string)
    requires |name| == MAX_LENGTH && IsName(name) && name[MAX_LENGTH - 2..] == "_2"
    ensures AddTools(EMPTY_TABLE, [FunctionDecl(name), FunctionDecl(name)]).chatTools
        == [name, name[..MAX_LENGTH - 2] + "_3"]
  {
    hide SafeName, Trim, IsName;
    var decls := [FunctionDecl(name), FunctionDecl(name)];
    ExtraAttempt(name);
    NameIsTrimmed(name);
    assert decls[..1] == [FunctionDecl(name)] && decls[..1][..0] == [] && AddTools(EMPTY_TABLE, []) == EMPTY_TABLE;
    var t := AddTools(EMPTY_TABLE, decls[..1]);
    assert t.chatTools == [name] && t.used == {name};
  }
}
