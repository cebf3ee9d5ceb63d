/** The tool registry of api/services/mcp_service.py: `MCPHttpClient` (one
    connection to one MCP server) and `MCPManager` (the name-to-client routing
    table, the flattened tool catalog and the never-raising `call_tool`).
    The transport, the JSON parser and the remote tool are parameters. */
module Mcp {
  import opened Wrappers
  import opened Schema
  import Text

  /** One tool a server advertises. */
  datatype Tool = Tool(name: string, description: Option<string>, inputSchema: Json)

  /** One entry of `MCP_SERVERS`. */
  datatype ServerConfig = ServerConfig(url: string, token: Option<string>)

  /** How one `connect()` attempt ends. The session object is stored before
      `initialize()` and `list_tools()` run, so a failure or a timeout after
      that point leaves a session behind but no tools. */
  datatype ConnectOutcome =
    | Unreachable
    | FailedAfterSession
    | Listed(tools: seq<Tool>)

  /** A content block of a tool result; `text` is `None` when the block has
      no `text` attribute (an image, say). */
  datatype Block = Block(text: Option<string>)

  /** What a tool call returns: a list of content blocks, a string, or any
      other JSON value. */
  datatype Payload = Blocks(blocks: seq<Block>) | Text(s: string) | Other(value: Json)

  /** What the remote server does with one call. */
  datatype RemoteOutcome = Returned(payload: Payload) | Raised

  /** The exceptions `MCPHttpClient.call_tool` raises. */
  datatype ClientError =
    | NotConnected                              // ConnectionError
    | UnknownTool(name: string, server: string) // ValueError
    | RemoteFailed                              // whatever the session raised

  /** One entry of `get_all_tools()`: a `{"type": "function", ...}` record. */
  datatype FunctionDecl = FunctionDecl(name: string, description: Option<string>, parameters: Json)

  function Names(ts: seq<Tool>): set<string> {
    set t | t in ts :: t.name
  }

  /** The tools a freshly created client holds after one connect attempt. */
  function ToolsAfter(o: ConnectOutcome): seq<Tool> {
    if o.Listed? then o.tools else []
  }

  function ListsAfter(os: seq<ConnectOutcome>): (r: seq<seq<Tool>>)
    ensures |r| == |os| && forall i | 0 <= i < |os| :: r[i] == ToolsAfter(os[i])
  {
    seq(|os|, i requires 0 <= i < |os| => ToolsAfter(os[i]))
  }

  class Client {
    const baseUrl: string
    const token: Option<string>
    var hasSession: bool
    var tools: seq<Tool>

    constructor (url: string, token: Option<string>)
      ensures baseUrl == url && this.token == token
      ensures !hasSession && tools == []
    {
      baseUrl := url;
      this.token := token;
      hasSession := false;
      tools := [];
    }

    /** `connect()`: never raises; the tool list is replaced on success and
        kept on failure. */
    method Connect(outcome: ConnectOutcome)
      modifies this
      ensures hasSession == (old(hasSession) || !outcome.Unreachable?)
      ensures tools == if outcome.Listed? then outcome.tools else old(tools)
    {
      match outcome
      case Unreachable =>
      case FailedAfterSession =>
        hasSession := true;
      case Listed(ts) =>
        hasSession := true;
        tools := ts;
    }

    /** `call_tool`: refuses without a session, refuses a name this server
        did not advertise, and otherwise returns what the remote call gives. */
    method CallTool(name: string, args: Json, remote: (string, string, Json) -> RemoteOutcome)
      returns (r: Result<Payload, ClientError>)
      ensures !hasSession ==> r == Failure(NotConnected)
      ensures hasSession && name !in Names(tools) ==> r == Failure(UnknownTool(name, baseUrl))
      ensures hasSession && name in Names(tools) ==>
        r == match remote(baseUrl, name, args)
             case Returned(p) => Success(p)
             case Raised => Failure(RemoteFailed)
    {
      if !hasSession {
        return Failure(NotConnected);
      }
      var found := false;
      var i := 0;
      while i < |tools| && !found
        invariant 0 <= i <= |tools|
        invariant found <==> name in Names(tools[..i])
      {
        found := tools[i].name == name;
        assert tools[..i + 1] == tools[..i] + [tools[i]];
        i := i + 1;
      }
      assert !found ==> tools[..i] == tools;
      assert found ==> name in Names(tools) by {
        if found { assert forall t | t in tools[..i] :: t in tools; }
      }
      if !found {
        return Failure(UnknownTool(name, baseUrl));
      }
      match remote(baseUrl, name, args)
      case Returned(p) => r := Success(p);
      case Raised => r := Failure(RemoteFailed);
    }
  }

  /** The tool lists of `cs`, in order. */
  function ToolListsOf(cs: seq<Client>): (r: seq<seq<Tool>>)
    reads cs
    ensures |r| == |cs| && forall i | 0 <= i < |cs| :: r[i] == cs[i].tools
  {
    if cs == [] then [] else ToolListsOf(cs[..|cs| - 1]) + [cs[|cs| - 1].tools]
  }

  lemma ToolListsAre(cs: seq<Client>, lists: seq<seq<Tool>>)
    requires |cs| == |lists| && forall i | 0 <= i < |cs| :: cs[i].tools == lists[i]
    ensures ToolListsOf(cs) == lists
  {
  }

  /** The routing table after writing `name := c` for each tool of `ts` in
      turn: the tools' names now route to `c`, every other key as before. */
  function AddAll<C>(m: map<string, C>, c: C, ts: seq<Tool>): (r: map<string, C>)
    ensures r.Keys == m.Keys + Names(ts)
    ensures forall n | n in r :: r[n] == if n in Names(ts) then c else m[n]
  {
    if ts == [] then m
    else
      var k := |ts| - 1;
      assert Names(ts) == Names(ts[..k]) + {ts[k].name} by {
        assert ts == ts[..k] + [ts[k]];
      }
      AddAll(m, c, ts[..k])[ts[k].name := c]
  }

  /** The routing table built by the nested loop of `startup`, starting from
      `m0`: client `owners[i]` advertises `lists[i]`, and each write
      overwrites the previous owner of the name. */
  function Merge<C>(m0: map<string, C>, owners: seq<C>, lists: seq<seq<Tool>>): map<string, C>
    requires |owners| == |lists|
  {
    if lists == [] then m0
    else
      var k := |lists| - 1;
      AddAll(Merge(m0, owners[..k], lists[..k]), owners[k], lists[k])
  }

  /** Registering one more tool overwrites its name's route. */
  lemma AddAllSnoc<C>(m: map<string, C>, c: C, ts: seq<Tool>, j: nat)
    requires j < |ts|
    ensures AddAll(m, c, ts[..j + 1]) == AddAll(m, c, ts[..j])[ts[j].name := c]
  {
    assert ts[..j + 1][..j] == ts[..j];
  }

  /** Registering one more client's tools after the earlier ones. */
  lemma MergeSnoc<C>(m0: map<string, C>, owners: seq<C>, lists: seq<seq<Tool>>, i: nat)
    requires |owners| == |lists| && i < |lists|
    ensures Merge(m0, owners[..i + 1], lists[..i + 1]) == AddAll(Merge(m0, owners[..i], lists[..i]), owners[i], lists[i])
  {
    assert owners[..i + 1][..i] == owners[..i] && lists[..i + 1][..i] == lists[..i];
  }

  /** The position of the last list that advertises `name`, or -1. */
  function LastAdvertiser(lists: seq<seq<Tool>>, name: string): (i: int)
    ensures -1 <= i < |lists|
    ensures i >= 0 ==> name in Names(lists[i])
    ensures forall j | i < j < |lists| :: name !in Names(lists[j])
  {
    if lists == [] then -1
    else if name in Names(lists[|lists| - 1]) then |lists| - 1
    else LastAdvertiser(lists[..|lists| - 1], name)
  }

  /** The routing table's keys are the earlier keys and every advertised
      name; an advertised name routes to the LAST client that advertises it;
      any other key keeps its earlier owner. */
  lemma {:induction false} MergeRoutes<C>(m0: map<string, C>, owners: seq<C>, lists: seq<seq<Tool>>, name: string)
    requires |owners| == |lists|
    ensures name in Merge(m0, owners, lists) <==>
      name in m0 || exists i :: 0 <= i < |lists| && name in Names(lists[i])
    ensures LastAdvertiser(lists, name) >= 0 ==>
      name in Merge(m0, owners, lists) && Merge(m0, owners, lists)[name] == owners[LastAdvertiser(lists, name)]
    ensures LastAdvertiser(lists, name) < 0 && name in m0 ==> Merge(m0, owners, lists)[name] == m0[name]
  {
    if lists != [] {
      var k := |lists| - 1;
      MergeRoutes(m0, owners[..k], lists[..k], name);
      if LastAdvertiser(lists, name) >= 0 {
        assert name in Names(lists[LastAdvertiser(lists, name)]);
      }
    }
  }

  /** All the tools, client by client and, within a client, in order. */
  function Flatten(lists: seq<seq<Tool>>): seq<Tool> {
    if lists == [] then [] else Flatten(lists[..|lists| - 1]) + lists[|lists| - 1]
  }

  function TotalTools(lists: seq<seq<Tool>>): nat {
    if lists == [] then 0 else TotalTools(lists[..|lists| - 1]) + |lists[|lists| - 1]|
  }

  /** Tool `j` of client `i` sits at position `|Flatten(lists[..i])| + j`,
      and the catalog has one entry per (client, tool) pair. */
  lemma {:induction false} FlattenAt(lists: seq<seq<Tool>>, i: nat, j: nat)
    requires i < |lists| && j < |lists[i]|
    ensures |Flatten(lists)| == TotalTools(lists)
    ensures |Flatten(lists[..i])| + j < |Flatten(lists)|
    ensures Flatten(lists)[|Flatten(lists[..i])| + j] == lists[i][j]
  {
    var k := |lists| - 1;
    FlattenLength(lists);
    if i < k {
      assert lists[..k][..i] == lists[..i];
      FlattenAt(lists[..k], i, j);
    } else {
      assert lists[..k] == lists[..i];
    }
  }

  lemma {:induction false} FlattenLength(lists: seq<seq<Tool>>)
    ensures |Flatten(lists)| == TotalTools(lists)
  {
    if lists != [] {
      FlattenLength(lists[..|lists| - 1]);
    }
  }

  /** The declaration `get_all_tools` emits for one tool. */
  function Declare(t: Tool): FunctionDecl
    requires Normalize(t.inputSchema).Some?
  {
    FunctionDecl(t.name, t.description, Normalize(t.inputSchema).value)
  }

  /** The declarations of `ts` in order, or `None` when normalising one of
      the schemas raises (which aborts `get_all_tools`). */
  function Describe(ts: seq<Tool>): (r: Option<seq<FunctionDecl>>)
    ensures r.Some? <==> forall i | 0 <= i < |ts| :: Normalize(ts[i].inputSchema).Some?
    ensures r.Some? ==>
      && |r.value| == |ts|
      && forall i | 0 <= i < |ts| :: Normalize(ts[i].inputSchema).Some? && r.value[i] == Declare(ts[i])
  {
    if ts == [] then Some([])
    else
      var k := |ts| - 1;
      var prefix := Describe(ts[..k]);
      var t := ts[k];
      if prefix.None? || Normalize(t.inputSchema).None? then
        assert !forall i | 0 <= i < |ts| :: Normalize(ts[i].inputSchema).Some? by {
          if prefix.None? {
            var i :| 0 <= i < k && Normalize(ts[..k][i].inputSchema).None?;
            assert ts[i] == ts[..k][i];
          }
        }
        None
      else
        Some(prefix.value + [Declare(t)])
  }

  /** Describing one more tool whose schema normalises adds its
      declaration at the end. */
  lemma DescribeSnoc(ts: seq<Tool>, t: Tool, ds: seq<FunctionDecl>)
    requires Describe(ts) == Some(ds) && Normalize(t.inputSchema).Some?
    ensures Describe(ts + [t]) == Some(ds + [Declare(t)])
  {
    assert (ts + [t])[..|ts|] == ts;
  }

  /** Flattening one more list appends its tools. */
  lemma FlattenSnoc(lists: seq<seq<Tool>>, i: nat)
    requires i < |lists|
    ensures Flatten(lists[..i + 1]) == Flatten(lists[..i]) + lists[i]
  {
    assert lists[..i + 1][..i] == lists[..i];
  }

  /** The catalog of the earlier clients is a prefix of the whole one. */
  lemma {:induction false} FlattenPrefix(lists: seq<seq<Tool>>, k: nat)
    requires k <= |lists|
    ensures Flatten(lists[..k]) <= Flatten(lists)
  {
    if k < |lists| {
      var n := |lists| - 1;
      assert lists[..n][..k] == lists[..k];
      FlattenPrefix(lists[..n], k);
    } else {
      assert lists[..k] == lists;
    }
  }

  /** A schema that fails to normalise makes every longer list fail too. */
  lemma DescribePrefix(a: seq<Tool>, b: seq<Tool>)
    requires a <= b && Describe(a).None?
    ensures Describe(b).None?
  {
    var k :| 0 <= k < |a| && Normalize(a[k].inputSchema).None?;
    assert b[k] == a[k];
  }

  /** When the tools of the first `k` clients cannot all be declared,
      there is no catalog. */
  lemma CatalogFailsEarly(lists: seq<seq<Tool>>, k: nat)
    requires k <= |lists| && Describe(Flatten(lists[..k])).None?
    ensures Catalog(lists).None?
  {
    FlattenPrefix(lists, k);
    DescribePrefix(Flatten(lists[..k]), Flatten(lists));
  }

  /** The inner loop of `get_all_tools`: declares each tool of one client
      after the declarations already made for `done`. */
  method DescribeMore(ghost done: seq<Tool>, ts: seq<Tool>, acc: seq<FunctionDecl>) returns (r: Option<seq<FunctionDecl>>)
    requires Describe(done) == Some(acc)
    ensures r == Describe(done + ts)
  {
    var all := acc;
    var j := 0;
    assert done + ts[..0] == done;
    while j < |ts|
      invariant 0 <= j <= |ts|
      invariant Describe(done + ts[..j]) == Some(all)
    {
      var fixed := Normalize(ts[j].inputSchema);
      if fixed.None? {
        assert (done + ts)[|done| + j] == ts[j];
        return None;
      }
      assert done + ts[..j + 1] == (done + ts[..j]) + [ts[j]];
      DescribeSnoc(done + ts[..j], ts[j], all);
      all := all + [FunctionDecl(ts[j].name, ts[j].description, fixed.value)];
      j := j + 1;
    }
    assert ts[..j] == ts;
    return Some(all);
  }

  /** What `get_all_tools` returns for clients advertising `lists`. */
  function Catalog(lists: seq<seq<Tool>>): Option<seq<FunctionDecl>> {
    Describe(Flatten(lists))
  }

  /** Every (client, tool) pair has its own catalog entry, without
      de-duplication, in client-then-tool order, carrying the tool's name and
      description and a closed schema. */
  lemma CatalogEntry(lists: seq<seq<Tool>>, i: nat, j: nat)
    requires Catalog(lists).Some?
    requires i < |lists| && j < |lists[i]|
    ensures |Catalog(lists).value| == TotalTools(lists)
    ensures |Flatten(lists[..i])| + j < TotalTools(lists)
    ensures var d := Catalog(lists).value[|Flatten(lists[..i])| + j];
      && d.name == lists[i][j].name
      && d.description == lists[i][j].description
      && Some(d.parameters) == Normalize(lists[i][j].inputSchema)
      && Closed(d.parameters)
  {
    FlattenAt(lists, i, j);
    NormalizeClosed(lists[i][j].inputSchema);
  }

  /** `"\n".join(str(item.text) for item in result if hasattr(item, 'text'))`. */
  function TextsOf(bs: seq<Block>): (r: seq<string>)
    ensures |r| <= |bs|
    ensures r == [] <==> forall i | 0 <= i < |bs| :: bs[i].text.None?
    ensures forall k | 0 <= k < |r| :: exists i :: 0 <= i < |bs| && bs[i].text == Some(r[k])
  {
    if bs == [] then []
    else
      var rest := TextsOf(bs[1..]);
      assert forall k | 0 <= k < |rest| :: exists i :: 0 <= i < |bs| && bs[i].text == Some(rest[k]) by {
        forall k | 0 <= k < |rest| ensures exists i :: 0 <= i < |bs| && bs[i].text == Some(rest[k]) {
          var i :| 0 <= i < |bs[1..]| && bs[1..][i].text == Some(rest[k]);
          assert bs[i + 1] == bs[1..][i];
        }
      }
      assert (forall i | 0 <= i < |bs[1..]| :: bs[1..][i].text.None?) ==>
        forall i | 1 <= i < |bs| :: bs[i].text.None? by {
        forall i | 1 <= i < |bs| ensures bs[i] == bs[1..][i - 1] { }
      }
      match bs[0].text
      case Some(s) => [s] + rest
      case None => rest
  }

  /** Blocks are read independently: the texts of two runs of blocks are
      the texts of the first followed by those of the second. */
  lemma {:induction false} TextsOfConcat(a: seq<Block>, b: seq<Block>)
    ensures TextsOf(a + b) == TextsOf(a) + TextsOf(b)
  {
    if a != [] {
      assert (a + b)[0] == a[0];
      assert (a + b)[1..] == a[1..] + b;
      TextsOfConcat(a[1..], b);
      var h := if a[0].text.Some? then [a[0].text.value] else [];
      assert TextsOf(a + b) == h + TextsOf(a[1..] + b);
      assert TextsOf(a) == h + TextsOf(a[1..]);
    } else {
      assert a + b == b;
    }
  }

  /** A block with text contributes exactly that text; one without
      contributes nothing. */
  lemma TextsOfBlock(t: string)
    ensures TextsOf([Block(Some(t))]) == [t]
    ensures TextsOf([Block(None)]) == []
  {
    assert [Block(Some(t))][1..] == [];
    assert [Block(None)][1..] == [];
  }

  /** The text a successful tool call turns into. */
  function Render(p: Payload, dumps: Json -> string): (r: string)
    ensures p.Blocks? && (forall i | 0 <= i < |p.blocks| :: p.blocks[i].text.None?) ==> r == []
    ensures p.Blocks? && |p.blocks| == 1 && p.blocks[0].text.Some? ==> r == p.blocks[0].text.value
  {
    match p
    case Blocks(bs) => Text.JoinLines(TextsOf(bs))
    case Text(s) => s
    case Other(v) => dumps(v)
  }

  /** When the blocks' texts have no newline and some block has text, the
      rendered reply splits back into exactly those texts. */
  lemma RenderBlocksRecoverable(bs: seq<Block>, dumps: Json -> string)
    requires exists i :: 0 <= i < |bs| && bs[i].text.Some?
    requires forall i | 0 <= i < |bs| && bs[i].text.Some? :: '\n' !in bs[i].text.value
    ensures Text.SplitLines(Render(Blocks(bs), dumps)) == TextsOf(bs)
  {
    var ts := TextsOf(bs);
    forall k | 0 <= k < |ts| ensures '\n' !in ts[k] {
      var i :| 0 <= i < |bs| && bs[i].text == Some(ts[k]);
    }
    Text.SplitJoinLines(ts);
  }

  function NotFoundMessage(name: string): (r: string)
    ensures |r| == 25 + |name| && r[13..13 + |name|] == name
  {
    "Error: Tool '" + name + "' not found."
  }

  function InvalidJsonMessage(name: string): (r: string)
    ensures |r| == 42 + |name| && r[40..40 + |name|] == name
  {
    "Error: Invalid JSON arguments for tool '" + name + "'."
  }

  function UnexpectedErrorMessage(name: string): (r: string)
    ensures |r| == 58 + |name| && r[56..56 + |name|] == name
  {
    "Error: An unexpected error occurred while calling tool '" + name + "'."
  }

  /** The three failure replies of `call_tool` can never be confused with
      one another. */
  lemma ErrorKindsDistinct(a: string, b: string)
    ensures NotFoundMessage(a) != InvalidJsonMessage(b)
    ensures NotFoundMessage(a) != UnexpectedErrorMessage(b)
    ensures InvalidJsonMessage(a) != UnexpectedErrorMessage(b)
  {
    assert NotFoundMessage(a)[7] == 'T' && InvalidJsonMessage(b)[7] == 'I';
    var n, u := NotFoundMessage(a), UnexpectedErrorMessage(b);
    assert n[|n| - 2] == 'd' && u[|u| - 2] == '\'';
    assert InvalidJsonMessage(a)[39] == '\'' && u[39] == 'l';
  }

  /** Each failure reply names exactly one tool. */
  lemma ErrorMessagesInjective(a: string, b: string)
    ensures NotFoundMessage(a) == NotFoundMessage(b) ==> a == b
    ensures InvalidJsonMessage(a) == InvalidJsonMessage(b) ==> a == b
    ensures UnexpectedErrorMessage(a) == UnexpectedErrorMessage(b) ==> a == b
  {
    if NotFoundMessage(a) == NotFoundMessage(b) {
      assert NotFoundMessage(a)[13..13 + |a|] == NotFoundMessage(b)[13..13 + |b|];
    }
    if InvalidJsonMessage(a) == InvalidJsonMessage(b) {
      assert InvalidJsonMessage(a)[40..40 + |a|] == InvalidJsonMessage(b)[40..40 + |b|];
    }
    if UnexpectedErrorMessage(a) == UnexpectedErrorMessage(b) {
      assert UnexpectedErrorMessage(a)[56..56 + |a|] == UnexpectedErrorMessage(b)[56..56 + |b|];
    }
  }

  /** Lines 104-107 of `startup`: one fresh client per configured server,
      each connected once. The source connects them concurrently; each
      connection touches only its own client, so one after the other gives
      the same clients. */
  method ConnectAll(servers: seq<ServerConfig>, outcomes: seq<ConnectOutcome>) returns (cs: seq<Client>)
    requires |outcomes| == |servers|
    ensures |cs| == |servers|
    ensures forall k | 0 <= k < |cs| ::
      && fresh(cs[k])
      && cs[k].baseUrl == servers[k].url && cs[k].token == servers[k].token
      && cs[k].hasSession == !outcomes[k].Unreachable?
      && cs[k].tools == ToolsAfter(outcomes[k])
  {
    cs := [];
    var i := 0;
    while i < |servers|
      invariant 0 <= i <= |servers| && |cs| == i
      invariant forall k | 0 <= k < i ::
        && fresh(cs[k])
        && cs[k].baseUrl == servers[k].url && cs[k].token == servers[k].token
        && cs[k].hasSession == !outcomes[k].Unreachable?
        && cs[k].tools == ToolsAfter(outcomes[k])
    {
      var c := new Client(servers[i].url, servers[i].token);
      c.Connect(outcomes[i]);
      cs := cs + [c];
      i := i + 1;
    }
  }

  /** Merging the tools of clients that hold a session into a table whose
      every name belongs to a connected client advertising it keeps that
      property. */
  lemma RoutesStayValid(m0: map<string, Client>, cs: seq<Client>, lists: seq<seq<Tool>>)
    requires |cs| == |lists|
    requires RoutesValid(m0)
    requires forall i | 0 <= i < |cs| :: cs[i].tools == lists[i]
    requires forall i | 0 <= i < |cs| :: cs[i].tools != [] ==> cs[i].hasSession
    ensures RoutesValid(Merge(m0, cs, lists))
  {
    var m := Merge(m0, cs, lists);
    forall n | n in m ensures m[n].hasSession && n in Names(m[n].tools) {
      MergeRoutes(m0, cs, lists, n);
      var last := LastAdvertiser(lists, n);
      if last >= 0 {
        assert m[n] == cs[last] && n in Names(cs[last].tools);
      }
    }
  }

  /** Every routed name belongs to a connected client that advertises it. */
  ghost predicate RoutesValid(m: map<string, Client>)
    reads m.Values
  {
    forall n | n in m :: m[n].hasSession && n in Names(m[n].tools)
  }

  class Manager {
    var clients: seq<Client>
    var toolMap: map<string, Client>

    ghost predicate Valid()
      reads this, toolMap.Values
    {
      RoutesValid(toolMap)
    }

    constructor ()
      ensures clients == [] && toolMap == map[]
      ensures Valid()
    {
      clients := [];
      toolMap := map[];
    }

    /** The tool lists of the current clients. */
    function ToolLists(): seq<seq<Tool>>
      reads this, clients
    {
      ToolListsOf(clients)
    }

    /** `startup()`. With no servers configured nothing changes. Otherwise a
        fresh client per server is connected (`outcomes[i]` says how server
        `i` answers) and every advertised name is written into the routing
        table, which is not cleared first, in client-then-tool order. */
    method Startup(servers: seq<ServerConfig>, outcomes: seq<ConnectOutcome>)
      requires |outcomes| == |servers|
      requires Valid()
      modifies this
      ensures Valid()
      ensures servers == [] ==> clients == old(clients) && toolMap == old(toolMap)
      ensures servers != [] ==>
        && |clients| == |servers|
        && (forall i | 0 <= i < |servers| ::
              && fresh(clients[i])
              && clients[i].baseUrl == servers[i].url && clients[i].token == servers[i].token
              && clients[i].hasSession == !outcomes[i].Unreachable?
              && clients[i].tools == ToolsAfter(outcomes[i]))
        && toolMap == Merge(old(toolMap), clients, ListsAfter(outcomes))
    {
      if servers == [] {
        return;
      }
      ghost var m0 := toolMap;
      var cs := ConnectAll(servers, outcomes);
      ghost var lists := ListsAfter(outcomes);
      forall i | 0 <= i < |cs| ensures cs[i].tools == lists[i] && (cs[i].tools != [] ==> cs[i].hasSession) {
        assert cs[i].tools == ToolsAfter(outcomes[i]);
      }
      ToolListsAre(cs, lists);
      Install(cs, lists);
      RoutesStayValid(m0, cs, lists);
    }

    /** Installs freshly connected clients and registers their tools. */
    method Install(cs: seq<Client>, ghost lists: seq<seq<Tool>>)
      requires |cs| == |lists| && ToolListsOf(cs) == lists
      modifies this
      ensures clients == cs && toolMap == Merge(old(toolMap), cs, lists)
    {
      clients := cs;
      assert ToolListsOf(clients) == lists;
      RegisterTools();
    }

    /** Lines 109-113 of `startup`: every tool of every client, in order,
        is written into the routing table, overwriting an earlier owner. */
    method RegisterTools()
      modifies this
      ensures clients == old(clients)
      ensures toolMap == Merge(old(toolMap), clients, ToolListsOf(clients))
    {
      ghost var lists := ToolListsOf(clients);
      var i := 0;
      while i < |clients|
        modifies this
        invariant 0 <= i <= |clients|
        invariant clients == old(clients)
        invariant toolMap == Merge(old(toolMap), clients[..i], lists[..i])
      {
        var ts := clients[i].tools;
        var j := 0;
        while j < |ts|
          modifies this
          invariant 0 <= j <= |ts|
          invariant clients == old(clients)
          invariant toolMap == AddAll(Merge(old(toolMap), clients[..i], lists[..i]), clients[i], ts[..j])
        {
          AddAllSnoc(Merge(old(toolMap), clients[..i], lists[..i]), clients[i], ts, j);
          toolMap := toolMap[ts[j].name := clients[i]];
          j := j + 1;
        }
        assert ts[..j] == lists[i];
        MergeSnoc(old(toolMap), clients, lists, i);
        i := i + 1;
      }
      assert clients[..i] == clients && lists[..i] == lists;
    }

    /** `get_all_tools()`: the catalog of every client's tools, in order,
        with normalised schemas; `None` when a normalisation raises. */
    method GetAllTools() returns (r: Option<seq<FunctionDecl>>)
      ensures r == Catalog(ToolLists())
    {
      ghost var lists := ToolLists();
      var all: seq<FunctionDecl> := [];
      var i := 0;
      while i < |clients|
        invariant 0 <= i <= |clients|
        invariant Describe(Flatten(lists[..i])) == Some(all)
      {
        var ts := clients[i].tools;
        assert ts == lists[i];
        FlattenSnoc(lists, i);
        var next := DescribeMore(Flatten(lists[..i]), ts, all);
        if next.None? {
          CatalogFailsEarly(lists, i + 1);
          return None;
        }
        all := next.value;
        i := i + 1;
      }
      assert lists[..i] == lists;
      return Some(all);
    }

    /** `call_tool`: never raises. An unknown name is reported before the
        arguments are parsed or any client is called; unparsable arguments
        and any failure of the client are reported by name; a result is
        rendered as text. */
    method CallTool(name: string, rawArgs: string, parse: string -> Option<Json>,
                    remote: (string, string, Json) -> RemoteOutcome, dumps: Json -> string)
      returns (r: string)
      ensures name !in toolMap ==> r == NotFoundMessage(name)
      ensures name in toolMap && parse(rawArgs).None? ==> r == InvalidJsonMessage(name)
      ensures name in toolMap && parse(rawArgs).Some? ==>
        var c := toolMap[name];
        r == if c.hasSession && name in Names(c.tools) && remote(c.baseUrl, name, parse(rawArgs).value).Returned?
             then Render(remote(c.baseUrl, name, parse(rawArgs).value).payload, dumps)
             else UnexpectedErrorMessage(name)
      ensures Valid() && name in toolMap && parse(rawArgs).Some? ==>
        var out := remote(toolMap[name].baseUrl, name, parse(rawArgs).value);
        r == if out.Returned? then Render(out.payload, dumps) else UnexpectedErrorMessage(name)
    {
      if name !in toolMap {
        return NotFoundMessage(name);
      }
      var client := toolMap[name];
      var args := parse(rawArgs);
      if args.None? {
        return InvalidJsonMessage(name);
      }
      var result := client.CallTool(name, args.value, remote);
      match result
      case Failure(_) =>
        r := UnexpectedErrorMessage(name);
      case Success(p) =>
        r := Render(p, dumps);
    }
  }
}
