/** The gateway-to-database sync route (frontend/app/api/chat/sync/route.js):
    fetch the gateway's history of the main session, read the latest stored
    rows, and insert every gateway message whose trimmed text is not already
    stored. The gateway, the database read and the insert are collaborators
    given as their outcomes; `now` stands for Date.now(). */
module ChatSync {
  import opened Strings

  const SessionKey: string := "agent:main:main"
  const SystemRole: string := "system"

  /** msg.content: a falsy value, a string, or another value (sent as its JSON text). */
  datatype Content = Falsy | Str(s: string) | Structured(json: string)

  /** !!msg.content; the empty string is falsy. */
  predicate Truthy(c: Content) {
    match c
    case Falsy => false
    case Str(s) => s != []
    case Structured(_) => true
  }

  /** typeof content === "string" ? content : JSON.stringify(content) */
  function TextOf(c: Content): string
    requires Truthy(c)
  {
    match c
    case Str(s) => s
    case Structured(json) => json
  }

  /** `timestamp` is None when absent; a zero timestamp is falsy too. */
  datatype GatewayMessage = GatewayMessage(role: string, content: Content, timestamp: Option<int>)

  datatype Row = Row(sessionId: string, role: string, content: string, createdAt: int)

  /** The trimmed contents of the stored rows. */
  function StoredTexts(db: seq<string>): set<string>
  {
    set k | 0 <= k < |db| :: Trim(db[k])
  }

  /** The loop's filters: not a system message, truthy content, non-blank
      text, and a trimmed text that is not stored. */
  predicate IsMissing(msg: GatewayMessage, stored: set<string>) {
    msg.role != SystemRole && Truthy(msg.content)
    && !IsBlank(TextOf(msg.content)) && Trim(TextOf(msg.content)) !in stored
  }

  /** The row inserted for a missing message. */
  function RowOf(msg: GatewayMessage, now: int): Row
    requires Truthy(msg.content)
  {
    var at := if msg.timestamp.Some? && msg.timestamp.value != 0 then msg.timestamp.value else now;
    Row(SessionKey, msg.role, TextOf(msg.content), at)
  }

  /** The rows to insert, in gateway order. */
  function MissingRows(messages: seq<GatewayMessage>, stored: set<string>, now: int): (rows: seq<Row>)
    ensures |rows| <= |messages|
    ensures forall k :: 0 <= k < |rows| ==>
              && rows[k].sessionId == SessionKey
              && rows[k].role != SystemRole
              && !IsBlank(rows[k].content)
              && Trim(rows[k].content) !in stored
    decreases |messages|
  {
    if messages == [] then []
    else
      var msg := messages[|messages| - 1];
      MissingRows(messages[..|messages| - 1], stored, now) + (if IsMissing(msg, stored) then [RowOf(msg, now)] else [])
  }

  /** Selection over concatenated lists concatenates the selections: order is
      kept and repeated messages are not collapsed. */
  lemma {:induction false} MissingRowsAppend(a: seq<GatewayMessage>, b: seq<GatewayMessage>, stored: set<string>, now: int)
    ensures MissingRows(a + b, stored, now) == MissingRows(a, stored, now) + MissingRows(b, stored, now)
    decreases |b|
  {
    if b == [] {
      assert a + b == a;
    } else {
      assert (a + b)[..|a + b| - 1] == a + b[..|b| - 1];
      assert (a + b)[|a + b| - 1] == b[|b| - 1];
      MissingRowsAppend(a, b[..|b| - 1], stored, now);
    }
  }

  /** One message is selected exactly when it passes the filters. */
  lemma MissingRowsSingle(msg: GatewayMessage, stored: set<string>, now: int)
    ensures MissingRows([msg], stored, now) == if IsMissing(msg, stored) then [RowOf(msg, now)] else []
  {
    assert [msg][..0] == [];
  }

  /** Every gateway message that passes the filters is selected, with its role. */
  lemma MissingRowsComplete(messages: seq<GatewayMessage>, stored: set<string>, now: int, k: nat)
    requires k < |messages| && IsMissing(messages[k], stored)
    ensures RowOf(messages[k], now) in MissingRows(messages, stored, now)
    ensures RowOf(messages[k], now).role == messages[k].role
  {
    assert messages == messages[..k] + [messages[k]] + messages[k + 1..];
    MissingRowsAppend(messages[..k] + [messages[k]], messages[k + 1..], stored, now);
    MissingRowsAppend(messages[..k], [messages[k]], stored, now);
    MissingRowsSingle(messages[k], stored, now);
  }

  /** A message whose trimmed text is stored is never selected again. */
  lemma StoredNeverSelected(msg: GatewayMessage, db: seq<string>, k: nat)
    requires k < |db| && Truthy(msg.content) && Trim(TextOf(msg.content)) == Trim(db[k])
    ensures !IsMissing(msg, StoredTexts(db))
  {
    assert Trim(db[k]) in StoredTexts(db);
  }

  /** The filtering loop of GET. */
  method SelectMissing(messages: seq<GatewayMessage>, db: seq<string>, now: int) returns (missing: seq<Row>)
    ensures missing == MissingRows(messages, StoredTexts(db), now)
  {
    var stored := StoredTexts(db);
    missing := [];
    var i := 0;
    while i < |messages|
      invariant 0 <= i <= |messages|
      invariant missing == MissingRows(messages[..i], stored, now)
    {
      var msg := messages[i];
      assert messages[..i + 1][..i] == messages[..i];
      i := i + 1;
      if msg.role == SystemRole || !Truthy(msg.content) {
        continue;
      }
      var text := TextOf(msg.content);
      var trimmed := Trim(text);
      TrimEmptyIffBlank(text);
      if trimmed == [] {
        continue;
      }
      if trimmed !in stored {
        var at := if msg.timestamp.Some? && msg.timestamp.value != 0 then msg.timestamp.value else now;
        missing := missing + [Row(SessionKey, msg.role, text, at)];
      }
    }
    assert messages[..|messages|] == messages;
  }

  // ---------------------------------------------------------------------
  // The route

  /** The gateway history fetch; `messages` is gwData.messages || []. */
  datatype GatewayFetch = GatewayThrew(message: string) | GatewayFailed(status: nat) | GatewayHistory(messages: seq<GatewayMessage>)

  /** The database read; a throw covers missing database configuration. */
  datatype DbRead = DbThrew(message: string) | DbError(message: string) | DbRows(contents: seq<string>)

  datatype InsertResult = Inserted | InsertError(message: string) | InsertThrew(message: string)

  datatype Call = FetchHistory | ReadDb | Insert(rows: seq<Row>)

  datatype SyncBody = Text(text: string) | ErrorJson(error: string) | Synced(synced: nat, gatewayCount: nat)

  datatype Response = Response(status: nat, body: SyncBody)

  /** GET: returns the response and the calls made, in order. */
  method Sync(token: string, gateway: GatewayFetch, db: DbRead, insert: seq<Row> -> InsertResult, now: int)
    returns (response: Response, calls: seq<Call>)
    ensures token == [] ==> response == Response(500, Text("Missing Gateway Token")) && calls == []
    ensures token != [] ==> calls != [] && calls[0] == FetchHistory
    ensures token != [] && gateway.GatewayThrew? ==> response == Response(500, ErrorJson(gateway.message)) && calls == [FetchHistory]
    ensures token != [] && gateway.GatewayFailed? ==>
              response == Response(500, Text("Gateway Sync Failed: " + NatToString(gateway.status))) && calls == [FetchHistory]
    ensures token != [] && gateway.GatewayHistory? ==> |calls| >= 2 && calls[1] == ReadDb
    ensures token != [] && gateway.GatewayHistory? && db.DbThrew? ==> response == Response(500, ErrorJson(db.message))
    ensures token != [] && gateway.GatewayHistory? && db.DbError? ==> response == Response(500, Text("DB Read Failed: " + db.message))
    // an insert is made exactly when some message is missing, and it carries those rows
    ensures |calls| <= 3
    ensures |calls| == 3 <==> token != [] && gateway.GatewayHistory? && db.DbRows?
                              && MissingRows(gateway.messages, StoredTexts(db.contents), now) != []
    ensures |calls| == 3 ==> calls[2] == Insert(MissingRows(gateway.messages, StoredTexts(db.contents), now))
    ensures |calls| == 3 && insert(calls[2].rows).InsertError? ==>
              response == Response(500, Text("Sync Insert Failed: " + insert(calls[2].rows).message))
    ensures |calls| == 3 && insert(calls[2].rows).InsertThrew? ==>
              response == Response(500, ErrorJson(insert(calls[2].rows).message))
    // success reports how many rows were inserted and how many the gateway had
    ensures response.status == 200 <==>
              token != [] && gateway.GatewayHistory? && db.DbRows? && (|calls| == 2 || insert(calls[2].rows).Inserted?)
    ensures response.status == 200 ==>
              response.body == Synced(|MissingRows(gateway.messages, StoredTexts(db.contents), now)|, |gateway.messages|)
  {
    calls := [];
    if token == [] {
      return Response(500, Text("Missing Gateway Token")), calls;
    }
    calls := calls + [FetchHistory];
    match gateway {
      case GatewayThrew(m) => return Response(500, ErrorJson(m)), calls;
      case GatewayFailed(status) => return Response(500, Text("Gateway Sync Failed: " + NatToString(status))), calls;
      case GatewayHistory(_) =>
    }
    var messages := gateway.messages;
    calls := calls + [ReadDb];
    match db {
      case DbThrew(m) => return Response(500, ErrorJson(m)), calls;
      case DbError(m) => return Response(500, Text("DB Read Failed: " + m)), calls;
      case DbRows(_) =>
    }
    var missing := SelectMissing(messages, db.contents, now);
    if |missing| > 0 {
      calls := calls + [Insert(missing)];
      match insert(missing) {
        case InsertError(m) => return Response(500, Text("Sync Insert Failed: " + m)), calls;
        case InsertThrew(m) => return Response(500, ErrorJson(m)), calls;
        case Inserted =>
      }
    }
    return Response(200, Synced(|missing|, |messages|)), calls;
  }
}
