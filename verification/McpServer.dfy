/** The MCP server of server.rs with the stdio loop of main.rs: who gets a response, who is
    subscribed, and which notifications go out. */
module McpServer {
  import opened Wrappers

  // ---------------------------------------------------------------------------
  // Resources
  // ---------------------------------------------------------------------------

  /** `resource_definitions`, in the order in which a `BTreeSet` iterates over their URIs. */
  const KNOWN_URIS: seq<string> :=
    ["awo://events", "awo://repos", "awo://review", "awo://sessions", "awo://slots", "awo://teams"]

  /** Domain events by the resources they touch. */
  datatype Event = BusEvent | RepoEvent | SlotEvent | SessionEvent | ReviewEvent | TeamEvent

  /** `subscribed_resource_uris_for_event` */
  function UrisFor(e: Event): seq<string> {
    match e
    case BusEvent => ["awo://events"]
    case RepoEvent => ["awo://repos", "awo://events"]
    case SlotEvent => ["awo://slots", "awo://review", "awo://events"]
    case SessionEvent => ["awo://sessions", "awo://events"]
    case ReviewEvent => ["awo://review", "awo://events"]
    case TeamEvent => ["awo://teams", "awo://events"]
  }

  ghost predicate Affects(events: seq<Event>, uri: string) {
    exists e :: e in events && uri in UrisFor(e)
  }

  /** The known URIs of a set, in `BTreeSet` order. */
  function InOrder(uris: set<string>, known: seq<string>): seq<string> {
    if known == [] then []
    else (if known[0] in uris then [known[0]] else []) + InOrder(uris, known[1..])
  }

  /** Byte-wise lexicographic order, as Rust compares strings. */
  ghost predicate Less(a: string, b: string) {
    exists k :: 0 <= k < |a| && k < |b| && a[..k] == b[..k] && a[k] < b[k]
  }

  lemma KnownUrisSorted()
    ensures forall i :: 0 <= i < |KNOWN_URIS| - 1 ==> Less(KNOWN_URIS[i], KNOWN_URIS[i + 1])
  {
    LessAt("awo://events", "awo://repos", 6);
    LessAt("awo://repos", "awo://review", 8);
    LessAt("awo://review", "awo://sessions", 6);
    LessAt("awo://sessions", "awo://slots", 7);
    LessAt("awo://slots", "awo://teams", 6);
  }

  lemma LessAt(a: string, b: string, k: nat)
    requires k < |a| && k < |b| && a[..k] == b[..k] && a[k] < b[k]
    ensures Less(a, b)
  {
  }

  // ---------------------------------------------------------------------------
  // Messages
  // ---------------------------------------------------------------------------

  datatype Id = Number(n: int) | Text(s: string)

  /** The `id` member on the wire. Deserialization maps both an absent member and `null` to None. */
  datatype WireId = Absent | Null | Present(id: Id)

  function ParsedId(w: WireId): Option<Id> {
    match w
    case Present(id) => Some(id)
    case _ => None
  }

  /** A message, with what the tool table and the dispatcher answer if it asks them: whether the
      tool and its arguments map to a command, and the command's events or error. */
  datatype Message = Message(id: WireId, method_: string, name: Option<string>, uri: Option<string>,
                             toolMapped: bool, outcome: Result<seq<Event>, ()>)

  const METHOD_NOT_FOUND := -32601
  const INTERNAL_ERROR := -32603
  const PARSE_ERROR := -32700

  datatype Payload =
    | Initialized
    | Pong
    | Tools
    | ToolResult(isError: bool)
    | Resources
    | Contents(uri: string)
    | Subscribed(uri: string)
    | Unsubscribed(uri: string, removed: bool)

  /** A response carries the request's id, or a null id for an unparsable line. */
  datatype Response = Reply(id: Option<Id>, payload: Payload) | Fault(id: Option<Id>, code: int)

  datatype ServerState = ServerState(initialized: bool, subscribed: set<string>, pending: seq<string>)

  predicate KnownUri(uri: string) { uri in KNOWN_URIS }

  ghost predicate ValidState(s: ServerState) {
    forall uri :: uri in s.subscribed ==> KnownUri(uri)
  }

  ghost function Touched(subscribed: set<string>, events: seq<Event>): set<string> {
    set uri | uri in subscribed && Affects(events, uri)
  }

  /** The URIs a successful tool call notifies. */
  ghost function Notified(subscribed: set<string>, events: seq<Event>): seq<string> {
    InOrder(Touched(subscribed, events), KNOWN_URIS)
  }

  ghost predicate SuccessfulToolCall(m: Message) {
    ParsedId(m.id).Some? && m.method_ == "tools/call" && m.name.Some? && m.toolMapped && m.outcome.Success?
  }

  ghost predicate Subscribes(m: Message, uri: string) {
    ParsedId(m.id).Some? && m.method_ == "resources/subscribe" && m.uri == Some(uri) && KnownUri(uri)
  }

  ghost predicate Unsubscribes(m: Message, uri: string) {
    ParsedId(m.id).Some? && m.method_ == "resources/unsubscribe" && m.uri == Some(uri) && KnownUri(uri)
  }

  /** What the handler of a request returns: its payload, or an error. */
  function HandlerResult(m: Message, subscribed: set<string>): Result<Payload, ()> {
    match m.method_
    case "initialize" => Success(Initialized)
    case "ping" => Success(Pong)
    case "tools/list" => Success(Tools)
    case "tools/call" => if m.name.None? then Failure(()) else Success(ToolResult(!m.toolMapped || m.outcome.Failure?))
    case "resources/list" => Success(Resources)
    case _ =>
      if m.uri.None? || !KnownUri(m.uri.value) then Failure(())
      else if m.method_ == "resources/read" then
        (if m.outcome.Success? then Success(Contents(m.uri.value)) else Failure(()))
      else if m.method_ == "resources/subscribe" then Success(Subscribed(m.uri.value))
      else Success(Unsubscribed(m.uri.value, m.uri.value in subscribed))
  }

  const METHODS: set<string> :=
    {"initialize", "ping", "tools/list", "tools/call", "resources/list",
        "resources/read", "resources/subscribe", "resources/unsubscribe"}

  /** The response to a request: unknown methods and handler errors have their own codes. */
  function Answer(id: Id, m: Message, subscribed: set<string>): Response {
    if m.method_ !in METHODS then Fault(Some(id), METHOD_NOT_FOUND)
    else
      match HandlerResult(m, subscribed)
      case Success(payload) => Reply(Some(id), payload)
      case Failure(_) => Fault(Some(id), INTERNAL_ERROR)
  }

  class Server {
    var initialized: bool
    var subscribed: set<string>
    var pending: seq<string>

    function View(): ServerState
      reads this
    {
      ServerState(initialized, subscribed, pending)
    }

    ghost predicate Valid()
      reads this
    {
      ValidState(View())
    }

    constructor ()
      ensures View() == ServerState(false, {}, []) && Valid()
    {
      initialized, subscribed, pending := false, {}, [];
    }

    /** Responds exactly to messages with an id, under that id; subscriptions change only by
        subscribe and unsubscribe requests, the queue only by successful tool calls. */
    method HandleMessage(m: Message) returns (r: Option<Response>)
      requires Valid()
      modifies this
      ensures Valid()
      ensures r.Some? <==> ParsedId(m.id).Some?
      ensures r.Some? ==> r.value == Answer(ParsedId(m.id).value, m, old(subscribed))
      ensures forall uri :: uri in subscribed <==>
              Subscribes(m, uri) || (uri in old(subscribed) && !Unsubscribes(m, uri))
      ensures pending == old(pending)
              + (if SuccessfulToolCall(m) then Notified(old(subscribed), m.outcome.value) else [])
      ensures initialized <==> old(initialized) || (ParsedId(m.id).Some? && m.method_ == "initialize")
    {
      var id := ParsedId(m.id);
      if id.None? {
        return None;
      }
      var result: Result<Payload, ()>;
      match m.method_ {
        case "initialize" =>
          initialized := true;
          result := Success(Initialized);
        case "ping" => result := Success(Pong);
        case "tools/list" => result := Success(Tools);
        case "tools/call" => result := HandleToolsCall(m);
        case "resources/list" => result := Success(Resources);
        case "resources/read" => result := HandleResourcesRead(m);
        case "resources/subscribe" => result := HandleResourcesSubscribe(m);
        case "resources/unsubscribe" => result := HandleResourcesUnsubscribe(m);
        case _ => return Some(Fault(id, METHOD_NOT_FOUND));
      }
      match result {
        case Success(payload) => r := Some(Reply(id, payload));
        case Failure(_) => r := Some(Fault(id, INTERNAL_ERROR));
      }
    }

    method HandleToolsCall(m: Message) returns (r: Result<Payload, ()>)
      requires Valid()
      modifies `pending
      ensures r == if m.name.None? then Failure(()) else Success(ToolResult(!m.toolMapped || m.outcome.Failure?))
      ensures pending == old(pending) +
              (if m.name.Some? && m.toolMapped && m.outcome.Success? then Notified(subscribed, m.outcome.value) else [])
    {
      if m.name.None? { return Failure(()); }
      if !m.toolMapped { return Success(ToolResult(true)); }
      match m.outcome {
        case Success(events) =>
          QueueResourceNotifications(events);
          r := Success(ToolResult(false));
        case Failure(_) => r := Success(ToolResult(true));
      }
    }

    method HandleResourcesRead(m: Message) returns (r: Result<Payload, ()>)
      ensures r == if m.uri.Some? && KnownUri(m.uri.value) && m.outcome.Success?
              then Success(Contents(m.uri.value))
              else Failure(())
    {
      if m.uri.None? || !KnownUri(m.uri.value) || m.outcome.Failure? { return Failure(()); }
      r := Success(Contents(m.uri.value));
    }

    method HandleResourcesSubscribe(m: Message) returns (r: Result<Payload, ()>)
      modifies `subscribed
      ensures r == if m.uri.Some? && KnownUri(m.uri.value) then Success(Subscribed(m.uri.value)) else Failure(())
      ensures subscribed == if r.Success? then old(subscribed) + {m.uri.value} else old(subscribed)
    {
      if m.uri.None? || !KnownUri(m.uri.value) { return Failure(()); }
      subscribed := subscribed + {m.uri.value};
      r := Success(Subscribed(m.uri.value));
    }

    method HandleResourcesUnsubscribe(m: Message) returns (r: Result<Payload, ()>)
      modifies `subscribed
      ensures r == if m.uri.Some? && KnownUri(m.uri.value)
              then Success(Unsubscribed(m.uri.value, m.uri.value in old(subscribed)))
              else Failure(())
      ensures subscribed == if r.Success? then old(subscribed) - {m.uri.value} else old(subscribed)
    {
      if m.uri.None? || !KnownUri(m.uri.value) { return Failure(()); }
      var removed := m.uri.value in subscribed;
      subscribed := subscribed - {m.uri.value};
      r := Success(Unsubscribed(m.uri.value, removed));
    }

    method QueueResourceNotifications(events: seq<Event>)
      modifies `pending
      ensures pending == old(pending) + Notified(subscribed, events)
    {
      if subscribed == {} || events == [] {
        NothingTouched(subscribed, events);
        return;
      }
      var changed: set<string> := {};
      for i := 0 to |events|
        invariant pending == old(pending)
        invariant changed == Touched(subscribed, events[..i])
      {
        assert events[..i + 1] == events[..i] + [events[i]];
        AffectsMore(events[..i], events[i]);
        changed := CollectUris(UrisFor(events[i]), changed);
      }
      assert events[..|events|] == events;
      pending := pending + InOrder(changed, KNOWN_URIS);
    }

    /** The inner loop: the subscribed ones among an event's URIs. */
    method CollectUris(uris: seq<string>, changed: set<string>) returns (r: set<string>)
      ensures forall uri :: uri in r <==> uri in changed || (uri in uris && uri in subscribed)
    {
      r := changed;
      for j := 0 to |uris|
        invariant forall uri :: uri in r <==> uri in changed || (uri in uris[..j] && uri in subscribed)
      {
        assert uris[..j + 1] == uris[..j] + [uris[j]];
        if uris[j] in subscribed {
          r := r + {uris[j]};
        }
      }
      assert uris[..|uris|] == uris;
    }

    method TakePendingNotifications() returns (r: seq<string>)
      modifies `pending
      ensures r == old(pending) && pending == []
    {
      r := pending;
      pending := [];
    }
  }

  lemma AffectsMore(events: seq<Event>, e: Event)
    ensures forall uri :: Affects(events + [e], uri) <==> Affects(events, uri) || uri in UrisFor(e)
  {
    forall uri ensures Affects(events + [e], uri) <==> Affects(events, uri) || uri in UrisFor(e) {
      if uri in UrisFor(e) { assert e in events + [e]; }
      if Affects(events, uri) { var x :| x in events && uri in UrisFor(x); assert x in events + [e]; }
    }
  }

  lemma NothingTouched(subscribed: set<string>, events: seq<Event>)
    requires subscribed == {} || events == []
    ensures Notified(subscribed, events) == []
  {
    assert Touched(subscribed, events) == {};
    NothingInOrder(KNOWN_URIS);
  }

  lemma {:induction false} NothingInOrder(known: seq<string>)
    ensures InOrder({}, known) == []
  {
    if known != [] { NothingInOrder(known[1..]); }
  }

  // ---------------------------------------------------------------------------
  // The stdio loop
  // ---------------------------------------------------------------------------

  datatype Line = Blank | Garbage | Request(m: Message)

  datatype Output = Sent(r: Response) | Note(uri: string)

  function Notes(uris: seq<string>): seq<Output> {
    seq(|uris|, i requires 0 <= i < |uris| => Note(uris[i]))
  }

  /** Whether the last subscribe or unsubscribe request for the URI, if any, was a subscribe. */
  ghost predicate SubscribedAfter(lines: seq<Line>, uri: string)
    decreases |lines|
  {
    lines != [] &&
    var line, init := lines[|lines| - 1], lines[..|lines| - 1];
    (line.Request? && Subscribes(line.m, uri)) ||
    (SubscribedAfter(init, uri) && !(line.Request? && Unsubscribes(line.m, uri)))
  }

  ghost function SubscriptionsAfter(lines: seq<Line>): (r: set<string>)
    ensures forall uri :: uri in r <==> SubscribedAfter(lines, uri)
    decreases |lines|
  {
    KnownWhenSubscribed(lines);
    set uri | uri in KNOWN_URIS && SubscribedAfter(lines, uri)
  }

  lemma {:induction false} KnownWhenSubscribed(lines: seq<Line>)
    ensures forall uri :: SubscribedAfter(lines, uri) ==> KnownUri(uri)
    decreases |lines|
  {
    if lines != [] { KnownWhenSubscribed(lines[..|lines| - 1]); }
  }

  /** What one input line is owed on the output after the lines before it: a response if it is
      unparsable or a request with an id, and then the notifications of a successful tool call. */
  ghost function Owed(before: seq<Line>, line: Line): seq<Output> {
    match line
    case Blank => []
    case Garbage => [Sent(Fault(None, PARSE_ERROR))]
    case Request(m) =>
      if ParsedId(m.id).None? then []
      else
        [Sent(Answer(ParsedId(m.id).value, m, SubscriptionsAfter(before)))]
        + if SuccessfulToolCall(m) then Notes(Notified(SubscriptionsAfter(before), m.outcome.value)) else []
  }

  ghost function SessionOutput(lines: seq<Line>): seq<Output>
    decreases |lines|
  {
    if lines == [] then []
    else SessionOutput(lines[..|lines| - 1]) + Owed(lines[..|lines| - 1], lines[|lines| - 1])
  }

  lemma SessionSnoc(before: seq<Line>, line: Line)
    ensures SessionOutput(before + [line]) == SessionOutput(before) + Owed(before, line)
  {
    assert (before + [line])[..|before|] == before;
  }

  /** The subscriptions are those that the lines read so far leave. */
  ghost predicate UpToDate(subscribed: set<string>, lines: seq<Line>) {
    forall uri :: uri in subscribed <==> SubscribedAfter(lines, uri)
  }

  /** One turn of the loop. */
  method ServeLine(server: Server, line: Line, ghost before: seq<Line>) returns (block: seq<Output>)
    requires server.Valid() && server.pending == [] && UpToDate(server.subscribed, before)
    modifies server
    ensures server.Valid() && server.pending == [] && UpToDate(server.subscribed, before + [line])
    ensures block == Owed(before, line)
  {
    assert (before + [line])[..|before|] == before;
    match line {
      case Blank => block := [];
      case Garbage => block := [Sent(Fault(None, PARSE_ERROR))];
      case Request(m) =>
        assert server.subscribed == SubscriptionsAfter(before);
        var response := server.HandleMessage(m);
        var notifications := server.TakePendingNotifications();
        block := (if response.Some? then [Sent(response.value)] else []) + Notes(notifications);
    }
  }

  /** main.rs: everything written during a session is, line by line, what that line is owed. */
  method ServeSession(lines: seq<Line>) returns (written: seq<Output>)
    ensures written == SessionOutput(lines)
  {
    var server := new Server();
    written := [];
    for n := 0 to |lines|
      invariant fresh(server) && server.Valid() && server.pending == [] && UpToDate(server.subscribed, lines[..n])
      invariant written == SessionOutput(lines[..n])
    {
      assert lines[..n + 1] == lines[..n] + [lines[n]];
      SessionSnoc(lines[..n], lines[n]);
      var block := ServeLine(server, lines[n], lines[..n]);
      written := written + block;
    }
    assert lines[..|lines|] == lines;
  }

  // ---------------------------------------------------------------------------
  // What the notifications are
  // ---------------------------------------------------------------------------

  lemma {:induction false} InOrderMembers(uris: set<string>, known: seq<string>)
    requires forall i, j :: 0 <= i < j < |known| ==> known[i] != known[j]
    ensures forall uri :: uri in InOrder(uris, known) <==> uri in uris && uri in known
    ensures forall i, j :: 0 <= i < j < |InOrder(uris, known)| ==> InOrder(uris, known)[i] != InOrder(uris, known)[j]
  {
    if known != [] {
      var rest := known[1..];
      InOrderMembers(uris, rest);
      assert known == [known[0]] + rest;
      assert known[0] !in rest;
    }
  }

  lemma KnownUrisDistinct()
    ensures forall i, j :: 0 <= i < j < |KNOWN_URIS| ==> KNOWN_URIS[i] != KNOWN_URIS[j]
  {
    assert KNOWN_URIS[0][6] == 'e' && KNOWN_URIS[1][8] == 'p' && KNOWN_URIS[2][8] == 'v';
    assert KNOWN_URIS[1][6] == 'r' && KNOWN_URIS[2][6] == 'r' && KNOWN_URIS[3][6] == 's'
           && KNOWN_URIS[4][6] == 's' && KNOWN_URIS[5][6] == 't';
    assert KNOWN_URIS[3][7] == 'e' && KNOWN_URIS[4][7] == 'l';
  }

  /** Exactly the subscribed URIs that the events affect, each once. */
  lemma NotifiedExactly(lines: seq<Line>, events: seq<Event>)
    ensures forall uri :: uri in Notified(SubscriptionsAfter(lines), events) <==>
            SubscribedAfter(lines, uri) && Affects(events, uri)
    ensures var r := Notified(SubscriptionsAfter(lines), events);
            forall i, j :: 0 <= i < j < |r| ==> r[i] != r[j]
  {
    KnownUrisDistinct();
    KnownWhenSubscribed(lines);
    InOrderMembers(Touched(SubscriptionsAfter(lines), events), KNOWN_URIS);
  }

  /** A session is subscribed to a resource exactly after a subscribe request for it, with an id,
      that no such unsubscribe request has followed. */
  lemma {:induction false} SubscribedIff(lines: seq<Line>, uri: string)
    requires uri in KNOWN_URIS
    ensures SubscribedAfter(lines, uri) <==>
            exists k :: 0 <= k < |lines| && Asks(lines[k], "resources/subscribe", uri)
                && forall j :: k < j < |lines| ==> !Asks(lines[j], "resources/unsubscribe", uri)
  {
    if lines != [] {
      var init, line := lines[..|lines| - 1], lines[|lines| - 1];
      SubscribedIff(init, uri);
      assert forall j :: 0 <= j < |init| ==> init[j] == lines[j];
      if Asks(line, "resources/subscribe", uri) {
        assert !Asks(line, "resources/unsubscribe", uri);
      } else if SubscribedAfter(lines, uri) {
        var k :| 0 <= k < |init| && Asks(init[k], "resources/subscribe", uri)
                 && forall j :: k < j < |init| ==> !Asks(init[j], "resources/unsubscribe", uri);
        assert Asks(lines[k], "resources/subscribe", uri);
      }
    }
  }

  predicate Asks(line: Line, method_: string, uri: string) {
    line.Request? && line.m.id.Present? && line.m.method_ == method_ && line.m.uri == Some(uri)
  }

  /** A line is owed a notification exactly if it is a tool call with an id whose command succeeded
      and touched a resource subscribed to; an unparsable line a parse error, a blank one nothing. */
  lemma OwedIff(before: seq<Line>, line: Line, uri: string)
    ensures Note(uri) in Owed(before, line) <==>
            && line.Request? && line.m.id.Present? && line.m.method_ == "tools/call" && line.m.name.Some?
            && line.m.toolMapped && line.m.outcome.Success?
            && SubscribedAfter(before, uri) && Affects(line.m.outcome.value, uri)
    ensures line.Garbage? ==> Owed(before, line) == [Sent(Fault(None, -32700))]
    ensures line.Blank? ==> Owed(before, line) == []
  {
    if line.Request? && line.m.id.Present? && SuccessfulToolCall(line.m) {
      var uris := Notified(SubscriptionsAfter(before), line.m.outcome.value);
      NotifiedExactly(before, line.m.outcome.value);
      assert forall k :: 0 <= k < |uris| ==> Notes(uris)[k] == Note(uris[k]);
      if uri in uris {
        var k :| 0 <= k < |uris| && uris[k] == uri;
        assert Notes(uris)[k] == Note(uri);
        assert Note(uri) in Notes(uris);
      }
    }
  }

  /** Which resources events affect: each its own kind's, and the review also slots'. */
  lemma AffectsIff(events: seq<Event>, uri: string)
    ensures Affects(events, uri) <==>
            || (uri == "awo://events" && events != [])
            || (uri == "awo://repos" && RepoEvent in events)
            || (uri == "awo://slots" && SlotEvent in events)
            || (uri == "awo://review" && (SlotEvent in events || ReviewEvent in events))
            || (uri == "awo://sessions" && SessionEvent in events)
            || (uri == "awo://teams" && TeamEvent in events)
  {
    if uri == "awo://events" && events != [] { assert events[0] in events; }
  }

  predicate AboutResource(m: Message) {
    m.method_ == "resources/read" || m.method_ == "resources/subscribe" || m.method_ == "resources/unsubscribe"
  }

  /** When a request is refused, and under which code. */
  lemma FaultsIff(id: Id, m: Message, subscribed: set<string>)
    ensures var r := Answer(id, m, subscribed);
            var known := m.uri.Some? && m.uri.value in {"awo://events", "awo://repos", "awo://review",
                                                        "awo://sessions", "awo://slots", "awo://teams"};
            && (r == Fault(Some(id), -32601) <==>
                && m.method_ != "initialize" && m.method_ != "ping" && m.method_ != "tools/list"
                && m.method_ != "tools/call" && m.method_ != "resources/list" && !AboutResource(m))
            && (r == Fault(Some(id), -32603) <==>
                || (m.method_ == "tools/call" && m.name == None)
                || (AboutResource(m) && !known)
                || (m.method_ == "resources/read" && m.outcome.Failure?))
            && (r.Fault? ==> r.code == -32601 || r.code == -32603)
  {
  }

  /** What a request that is not refused is told. An unknown tool, and one whose command fails, is
      an error inside a reply. */
  lemma RepliesWith(id: Id, m: Message, subscribed: set<string>)
    requires Answer(id, m, subscribed).Reply?
    ensures var r := Answer(id, m, subscribed);
            && r.id == Some(id)
            && (m.method_ == "initialize" ==> r.payload == Initialized)
            && (m.method_ == "ping" ==> r.payload == Pong)
            && (m.method_ == "tools/list" ==> r.payload == Tools)
            && (m.method_ == "tools/call" ==> r.payload == ToolResult(!(m.toolMapped && m.outcome.Success?)))
            && (m.method_ == "resources/list" ==> r.payload == Resources)
            && (AboutResource(m) ==> m.uri.Some?)
            && (m.method_ == "resources/read" ==> r.payload == Contents(m.uri.value))
            && (m.method_ == "resources/subscribe" ==> r.payload == Subscribed(m.uri.value))
            && (m.method_ == "resources/unsubscribe" ==>
                  r.payload == Unsubscribed(m.uri.value, m.uri.value in subscribed))
  {
  }

  /** A parsed line is answered exactly when its id member is present and not null. A request
      whose id is `null` is treated as a notification. */
  lemma AnsweredIff(before: seq<Line>, m: Message)
    ensures var block := Owed(before, Request(m));
            && ((exists o :: o in block && o.Sent?) <==> m.id.Present?)
            && (forall i, j :: 0 <= i < j < |block| ==> !(block[i].Sent? && block[j].Sent?))
            && (forall o :: o in block && o.Sent? ==> o.r.id == ParsedId(m.id))
  {
    var block := Owed(before, Request(m));
    if m.id.Present? { assert block[0] in block; }
  }
}
