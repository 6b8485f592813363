/** Calls that a request replays are sent upstream under the chat name of the tool they name, when that name tells
    them. */
module ReplayedCalls {
  import opened Wrappers
  import opened Text
  import opened SafeNames
  import opened ToolTable
  import opened DeclaredTools
  import opened Requests

  // ---------- the naming of a request ----------

  /** The first name, in the order in which the reverse map is walked, that stands for the original. */
  function FirstSafe(t: Table, order: seq<string>, original: string): (safe: Option<string>)
    ensures safe.Some? ==> safe.value in t.reverseNames && t.reverseNames[safe.value] == original
    ensures safe.None? ==> forall c :: c in order && c in t.reverseNames ==> t.reverseNames[c] != original
  {
    if order == [] then None
    else if order[0] in t.reverseNames && t.reverseNames[order[0]] == original then Some(order[0])
    else FirstSafe(t, order[1..], original)
  }

  function ChatName(t: Table, order: seq<string>, name: string, namespace: Option<string>): string {
    if namespace.Some? && namespace.value != "" then
      if (namespace.value, name) in t.byNamespace then t.byNamespace[(namespace.value, name)]
      else Take(Qualified(namespace.value, name), MAX_LENGTH)
    else FirstSafe(t, order, name).GetOr(name)
  }

  function NamingOf(t: Table, order: seq<string>, newId: nat -> string): Naming {
    Naming((name, namespace) => ChatName(t, order, name, namespace), newId)
  }

  /** Every name is met on the walk. */
  ghost predicate Walks(t: Table, order: seq<string>) {
    forall c :: c in t.reverseNames ==> c in order
  }

  /** The naming gives names that the tables allow. */
  lemma NamingFits(t: Table, order: seq<string>, name: string, namespace: Option<string>)
    requires Walks(t, order)
    ensures IsChatNameFor(t, name, namespace, ChatName(t, order, name, namespace))
  {
    hide Qualified, Take;
  }

  // ---------- the tool of a replayed call ----------

  /** The input item that replays a call of this tool. */
  function CallOf(entry: Entry, callId: string, arguments: string): InputItem {
    CallItem(match entry.kind case Custom => CustomToolCall case ToolSearch => ToolSearchCall case _ => FunctionCall,
             Some(callId), entry.name, entry.namespace, arguments)
  }

  /** A chat name that the replayed call may get, whatever the order of the walk. */
  ghost predicate MayReplayAs(t: Table, entry: Entry, chatName: string) {
    exists order :: Walks(t, order) && ReplayedName(CallOf(entry, "", ""), NamingOf(t, order, n => "")) == chatName
  }

  /** A plain name must come back trimmed and stand for this tool alone; the search tool must be the first whose name
      reads like its own. */
  ghost predicate KeepsName(entries: seq<Entry>, entry: Entry) {
    match entry.kind
    case Namespace => true
    case ToolSearch => FirstSearch(entries) == Some(entry)
    case _ => Trim(entry.name) == entry.name && forall e :: e in entries && Original(e) == entry.name ==> e == entry
  }

  /** Every chat tool stands for the original name of its declared tool, and nothing else is in the reverse map. */
  lemma ListedOriginals(t: Table, entries: seq<Entry>)
    requires Lists(t, entries) && Consistent(t)
    ensures |t.chatTools| == |entries| && Walks(t, t.chatTools)
    ensures forall i :: 0 <= i < |entries| ==>
              t.chatTools[i] in t.reverseNames && t.reverseNames[t.chatTools[i]] == Original(entries[i])
    ensures forall c :: c in t.reverseNames ==> exists i :: 0 <= i < |entries| && t.chatTools[i] == c
  {
    hide Trim, Distinct, IsName;
    forall i | 0 <= i < |entries|
      ensures t.chatTools[i] in t.reverseNames && t.reverseNames[t.chatTools[i]] == Original(entries[i])
    {
      assert IsListed(t, t.chatTools[i], entries[i]);
    }
  }

  /** Some walk gives any name that the tables allow. */
  lemma PlainNames(t: Table, entry: Entry, chatName: string)
    requires Walks(t, t.chatTools) && entry.namespace == None && entry.kind != ToolSearch
    ensures MayReplayAs(t, entry, chatName) <==> IsChatNameFor(t, entry.name, None, chatName)
  {
    hide Walks;
    if MayReplayAs(t, entry, chatName) {
      var order :| Walks(t, order) && ReplayedName(CallOf(entry, "", ""), NamingOf(t, order, n => "")) == chatName;
      NamingFits(t, order, entry.name, None);
    }
    if IsChatNameFor(t, entry.name, None, chatName) {
      var order := if HasOriginal(t, entry.name) then [chatName] + t.chatTools else t.chatTools;
      assert Walks(t, order) by { WalksOn(t, chatName); }
      assert ReplayedName(CallOf(entry, "", ""), NamingOf(t, order, n => "")) == chatName;
    }
  }

  lemma WalksOn(t: Table, first: string)
    requires Walks(t, t.chatTools)
    ensures Walks(t, [first] + t.chatTools)
  {
  }

  /** A name that the tables allow for a plain tool is that tool's exactly if it keeps its name. */
  lemma PlainCall(t: Table, entries: seq<Entry>, entry: Entry)
    requires Lists(t, entries) && Consistent(t) && entry in entries && entry.namespace == None
        && entry.kind != ToolSearch
    ensures (forall c :: IsChatNameFor(t, entry.name, None, c) ==> IsListed(t, c, entry))
       <==> Trim(entry.name) == entry.name && forall e :: e in entries && Original(e) == entry.name ==> e == entry
  {
    hide Qualified, Trim, Lists, Consistent, Original, Walks;
    ListedOriginals(t, entries);
    ListedEntries(t, entries);
    var n := entry.name;
    assert Original(entry) == Trim(n) by { PlainOriginal(entry); }
    var i :| 0 <= i < |entries| && entries[i] == entry;
    if Trim(n) != n {
      UntrimmedIsNoTool(t, entry);
      var c := if HasOriginal(t, n) then SomeSafe(t, n) else n;
      assert IsChatNameFor(t, n, None, c) && !IsListed(t, c, entry);
    } else {
      assert HasOriginal(t, n);
      forall j | 0 <= j < |entries| && Original(entries[j]) == n
        ensures IsChatNameFor(t, n, None, t.chatTools[j])
        ensures IsListed(t, t.chatTools[j], entry) <==> entries[j] == entry
      {
      }
      forall c | IsChatNameFor(t, n, None, c)
        ensures exists j :: 0 <= j < |entries| && t.chatTools[j] == c && Original(entries[j]) == n
      {
      }
    }
  }

  ghost function SomeSafe(t: Table, original: string): (c: string)
    requires HasOriginal(t, original)
    ensures c in t.reverseNames && t.reverseNames[c] == original
  {
    var c :| c in t.reverseNames && t.reverseNames[c] == original;
    c
  }

  /** No chat tool registered under another name, and no name that is not legal, is the tool. */
  lemma UntrimmedIsNoTool(t: Table, entry: Entry)
    requires Consistent(t) && entry.namespace == None && Trim(entry.name) != entry.name
    ensures forall c :: IsListed(t, c, entry) ==> c != entry.name && t.reverseNames[c] != entry.name
  {
    hide Qualified, Trim, IsName, Distinct;
    forall c | IsListed(t, c, entry) ensures c != entry.name && t.reverseNames[c] != entry.name {
      NameIsTrimmed(c);
    }
  }

  lemma PlainOriginal(entry: Entry)
    ensures entry.namespace == None ==> Original(entry) == Trim(entry.name)
  {
  }

  lemma ListedEntries(t: Table, entries: seq<Entry>)
    requires Lists(t, entries)
    ensures |t.chatTools| == |entries|
    ensures forall i :: 0 <= i < |entries| ==> IsListed(t, t.chatTools[i], entries[i]) && IsEntry(entries[i])
  {
  }

  /** A declared child is found by its namespace. */
  lemma ChildCall(t: Table, entries: seq<Entry>, entry: Entry, order: seq<string>)
    requires Lists(t, entries) && Finds(t, entries) && Consistent(t) && entry in entries && entry.namespace.Some?
    ensures IsListed(t, ChatName(t, order, entry.name, entry.namespace), entry)
  {
    hide Qualified, Trim, Distinct, IsName, FirstSearch;
    ListedOriginals(t, entries);
    var key := (entry.namespace.value, entry.name);
    var c := t.byNamespace[key];
    var j :| 0 <= j < |entries| && t.chatTools[j] == c;
    assert IsListed(t, c, entries[j]) && IsEntry(entries[j]);
  }

  /** A replayed call of a declared tool is sent under a chat name of that very tool, whatever the order in which the
      reverse map is walked, exactly if the tool keeps its name. */
  lemma ReplayedCallsNameTheirTools(decls: seq<ToolDecl>, entry: Entry)
    requires entry in AllEntries(decls)
    ensures var t := AddTools(EMPTY_TABLE, decls);
            (forall c :: MayReplayAs(t, entry, c) ==> IsListed(t, c, entry)) <==> KeepsName(AllEntries(decls), entry)
  {
    hide AddTools, AllEntries, Consistent, Lists, Original, Trim, Walks, FirstSearch;
    var t, entries := AddTools(EMPTY_TABLE, decls), AllEntries(decls);
    ToolsAreListed(decls);
    TableIsConsistent(decls);
    ListedOriginals(t, entries);
    ListedEntries(t, entries);
    if entry.namespace.Some? {
      forall c | MayReplayAs(t, entry, c) ensures IsListed(t, c, entry) {
        var order :| Walks(t, order) && ReplayedName(CallOf(entry, "", ""), NamingOf(t, order, n => "")) == c;
        ChildCall(t, entries, entry, order);
      }
    } else if entry.kind == ToolSearch {
      assert ReplayedName(CallOf(entry, "", ""), NamingOf(t, t.chatTools, n => "")) == TOOL_SEARCH_NAME;
      assert MayReplayAs(t, entry, TOOL_SEARCH_NAME);
    } else {
      forall c ensures MayReplayAs(t, entry, c) <==> IsChatNameFor(t, entry.name, None, c) {
        PlainNames(t, entry, c);
      }
      PlainCall(t, entries, entry);
    }
  }

  /** A function declared before the search tool takes its name; a function whose name has blanks around it is
      replayed under a name that no chat tool has. */
  lemma ReplayedCallsMayMissTheirTools(name: string)
    requires Trim(name) != "" && Trim(name) != name
    ensures var search := Entry(ToolSearch, TOOL_SEARCH_NAME, None);
            var entries := AllEntries([FunctionDecl(TOOL_SEARCH_NAME), ToolSearchDecl]);
            search in entries && !KeepsName(entries, search)
    ensures var plain := Entry(Function, name, None);
            AllEntries([FunctionDecl(name)]) == [plain] && !KeepsName([plain], plain)
  {
    hide Trim, Base;
    var first, search := Entry(Function, TOOL_SEARCH_NAME, None), Entry(ToolSearch, TOOL_SEARCH_NAME, None);
    var decls := [FunctionDecl(TOOL_SEARCH_NAME), ToolSearchDecl];
    SearchNameIsTrimmed(TOOL_SEARCH_NAME);
    SearchNameIsSafe(TOOL_SEARCH_NAME);
    assert decls[..1] == [FunctionDecl(TOOL_SEARCH_NAME)] && decls[..1][..0] == [] && [FunctionDecl(name)][..0] == [];
    assert AllEntries(decls[..1]) == [first] && AllEntries(decls) == [first, search];
    assert [first, search][..1] == [first] && [first][..0] == [];
    assert FirstSearch([first]) == Some(first);
  }

  lemma SearchNameIsSafe(name: string)
    requires name == TOOL_SEARCH_NAME
    ensures Base(name) == name
  {
    hide Sanitise;
    assert forall c :: c in name ==> IsNameChar(c);
    SaneStays(name);
  }
}
