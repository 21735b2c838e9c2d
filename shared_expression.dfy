/**
 * The M expression a Direct Lake semantic model uses to reach its lakehouse or
 * warehouse: either through the item's SQL endpoint or directly on OneLake.
 */
module SharedExpression {
  import opened Wrappers
  import opened Errors
  import opened PyStrings
  import opened JsonValues
  import opened Resolvers

  datatype ItemKind = Lakehouse | Warehouse

  function KindName(k: ItemKind): string {
    match k
    case Lakehouse => "Lakehouse"
    case Warehouse => "Warehouse"
  }

  /** The item type after `capitalize`, accepted only as Lakehouse or Warehouse. */
  function ParseItemKind(itemType: string): Result<ItemKind, Error> {
    var t := Capitalize(itemType);
    if t == "Lakehouse" then Ok(Lakehouse)
    else if t == "Warehouse" then Ok(Warehouse)
    else Err(InvalidItemType)
  }

  /**
   * The item type is accepted exactly when it spells lakehouse or warehouse in
   * any mix of case, and then names that kind.
   */
  lemma ParseItemKindSpec(itemType: string)
    ensures ParseItemKind(itemType) == Ok(Lakehouse) <==> Lower(itemType) == "lakehouse"
    ensures ParseItemKind(itemType) == Ok(Warehouse) <==> Lower(itemType) == "warehouse"
    ensures ParseItemKind(itemType) == Err(InvalidItemType) <==>
      Lower(itemType) != "lakehouse" && Lower(itemType) != "warehouse"
  {
    assert IsCapitalWord("Lakehouse");
    assert IsCapitalWord("Warehouse");
    CapitalizeMatches(itemType, "Lakehouse");
    CapitalizeMatches(itemType, "Warehouse");
    assert Lower("Lakehouse") == "lakehouse";
    assert Lower("Warehouse") == "warehouse";
  }

  /** The collection segment of the item's REST path: the lower-cased type plus `s`. */
  function RestSegment(k: ItemKind): (r: string)
    ensures r == Lower(KindName(k)) + "s"
  {
    match k
    case Lakehouse =>
      assert Lower("Lakehouse") == "lakehouse";
      "lakehouses"
    case Warehouse =>
      assert Lower("Warehouse") == "warehouse";
      "warehouses"
  }

  function ItemPath(workspaceId: string, k: ItemKind, itemId: string): string {
    "/v1/workspaces/" + workspaceId + "/" + RestSegment(k) + "/" + itemId
  }

  /** What the item's properties say about its SQL endpoint. */
  datatype EndpointInfo = EndpointInfo(connectionString: Value, databaseId: Value, provisioningStatus: Value)

  /**
   * A lakehouse reads connection string, id and status from
   * `properties.sqlEndpointProperties`; a warehouse reads its connection string
   * from `properties`, is its own database and reports no status.
   */
  function EndpointOf(k: ItemKind, itemId: string, body: Value): Result<EndpointInfo, Error> {
    var prop :- Get(body, "properties");
    match k
    case Lakehouse =>
      var sqlprop :- Get(prop, "sqlEndpointProperties");
      var cs :- Get(sqlprop, "connectionString");
      var id :- Get(sqlprop, "id");
      var status :- Get(sqlprop, "provisioningStatus");
      Ok(EndpointInfo(cs, id, status))
    case Warehouse =>
      var cs :- Get(prop, "connectionString");
      Ok(EndpointInfo(cs, Str(itemId), Null))
  }

  const SqlStart := "let\n\tdatabase = "
  const SqlEnd := "\nin\n\tdatabase"

  /** `Sql.Database("<connection string>", "<database id>")` wrapped in a let expression. */
  function SqlExpression(connectionString: string, databaseId: string): string {
    SqlStart + "Sql.Database(\"" + connectionString + "\", \"" + databaseId + "\")" + SqlEnd
  }

  /** Reads the two arguments back out of an SQL endpoint expression. */
  function SqlExpressionArgs(e: string): Option<(string, string)> {
    var head := SqlStart + "Sql.Database(\"";
    var tail := "\")" + SqlEnd;
    if |e| < |head| + |tail| || e[..|head|] != head || e[|e| - |tail|..] != tail then None
    else
      var mid := e[|head|..|e| - |tail|];
      var q := Find(mid, "\"");
      if q < 0 || !MatchAt(mid, q, "\", \"") then None
      else Some((mid[..q], mid[q + 4..]))
  }

  /** The first quote of `cs + "\", \"" + id` is the one right after `cs` when `cs` has none. */
  lemma FirstQuoteAfter(cs: string, id: string)
    requires '"' !in cs
    ensures Find(cs + "\", \"" + id, "\"") == |cs|
  {
    var mid := cs + "\", \"" + id;
    assert MatchAt(mid, |cs|, "\"");
    forall j | 0 <= j < |cs| ensures !MatchAt(mid, j, "\"") {
      assert mid[j..j + 1] == [cs[j]];
    }
  }

  /**
   * The expression determines its arguments: whenever the connection string has
   * no double quote, reading the expression back yields the same connection
   * string and database id.
   */
  lemma SqlExpressionRoundTrip(cs: string, id: string)
    requires '"' !in cs
    ensures SqlExpressionArgs(SqlExpression(cs, id)) == Some((cs, id))
  {
    var head := SqlStart + "Sql.Database(\"";
    var tail := "\")" + SqlEnd;
    var mid := cs + "\", \"" + id;
    var e := SqlExpression(cs, id);
    assert e == head + mid + tail;
    assert e[..|head|] == head;
    assert e[|e| - |tail|..] == tail;
    assert e[|head|..|e| - |tail|] == mid;
    FirstQuoteAfter(cs, id);
    assert mid[|cs|..|cs| + 4] == "\", \"";
    assert mid[..|cs|] == cs;
    assert mid[|cs| + 4..] == id;
  }

  /** The OneLake host prefix: none for prod, else the lower-cased environment and a dash. */
  function EnvPrefix(pbienv: string): string {
    var env := Lower(pbienv);
    if env == "prod" then "" else env + "-"
  }

  const OneLakeHostName := "onelake.dfs.fabric.microsoft.com"

  function OneLakeUrl(pbienv: string, workspaceId: string, itemId: string): string {
    "https://" + EnvPrefix(pbienv) + OneLakeHostName + "/" + workspaceId + "/" + itemId
  }

  function OneLakeExpression(pbienv: string, workspaceId: string, itemId: string): string {
    "let\n\tSource = AzureStorage.DataLake(\"" + OneLakeUrl(pbienv, workspaceId, itemId) + "\")\nin\n\tSource"
  }

  /** Prod, in any case, gives the bare OneLake host. */
  lemma OneLakeProdHost(pbienv: string, workspaceId: string, itemId: string)
    requires Lower(pbienv) == "prod"
    ensures OneLakeUrl(pbienv, workspaceId, itemId) == "https://" + OneLakeHostName + "/" + workspaceId + "/" + itemId
  {
    assert EnvPrefix(pbienv) == "";
    assert "https://" + EnvPrefix(pbienv) == "https://";
  }

  /** Any other environment puts its lower-cased name and a dash before the OneLake host. */
  lemma OneLakeOtherHost(pbienv: string, workspaceId: string, itemId: string)
    requires Lower(pbienv) != "prod"
    ensures OneLakeUrl(pbienv, workspaceId, itemId) ==
              "https://" + Lower(pbienv) + "-" + OneLakeHostName + "/" + workspaceId + "/" + itemId
  {
    assert EnvPrefix(pbienv) == Lower(pbienv) + "-";
  }

  /** The OneLake expression depends on the environment name only up to case. */
  lemma OneLakeEnvIgnoresCase(pbienv: string, other: string, workspaceId: string, itemId: string)
    requires Lower(pbienv) == Lower(other)
    ensures OneLakeExpression(pbienv, workspaceId, itemId) == OneLakeExpression(other, workspaceId, itemId)
  {
    assert EnvPrefix(pbienv) == EnvPrefix(other);
  }

  /**
   * generate_shared_expression: the workspace is resolved first, then the item
   * type is checked, the item resolved by its kind, and either the SQL endpoint
   * expression built from the item's properties (fetched from the item's path)
   * or the OneLake expression.
   */
  function GenerateSharedExpression(itemType: string, workspace: Result<Resolved, Error>,
                                    resolveItem: ItemKind -> Result<Resolved, Error>, useSqlEndpoint: bool,
                                    fetch: string -> Value, pbienv: string): Result<string, Error>
  {
    var ws :- workspace;
    var kind :- ParseItemKind(itemType);
    var item :- resolveItem(kind);
    if useSqlEndpoint then
      var info :- EndpointOf(kind, item.id, fetch(ItemPath(ws.id, kind, item.id)));
      if info.provisioningStatus == Str("InProgress") then Err(EndpointNotProvisioned)
      else Ok(SqlExpression(PyStr(info.connectionString), PyStr(info.databaseId)))
    else
      Ok(OneLakeExpression(pbienv, ws.id, item.id))
  }

  /** An item type other than lakehouse or warehouse is refused before any item is resolved. */
  lemma InvalidItemTypeRefused(itemType: string, ws: Resolved, resolveItem: ItemKind -> Result<Resolved, Error>,
                               useSqlEndpoint: bool, fetch: string -> Value, pbienv: string)
    requires Lower(itemType) != "lakehouse" && Lower(itemType) != "warehouse"
    ensures GenerateSharedExpression(itemType, Ok(ws), resolveItem, useSqlEndpoint, fetch, pbienv) == Err(InvalidItemType)
  {
    ParseItemKindSpec(itemType);
  }

  /** A lakehouse whose SQL endpoint is still being provisioned is refused. */
  lemma EndpointInProgressRefused(itemType: string, ws: Resolved, resolveItem: ItemKind -> Result<Resolved, Error>,
                                  fetch: string -> Value, pbienv: string)
    requires Lower(itemType) == "lakehouse" && resolveItem(Lakehouse).Ok?
    requires var item := resolveItem(Lakehouse).value;
      var info := EndpointOf(Lakehouse, item.id, fetch(ItemPath(ws.id, Lakehouse, item.id)));
      info.Ok? && info.value.provisioningStatus == Str("InProgress")
    ensures GenerateSharedExpression(itemType, Ok(ws), resolveItem, true, fetch, pbienv) == Err(EndpointNotProvisioned)
  {
    ParseItemKindSpec(itemType);
  }

  /**
   * A lakehouse whose SQL endpoint is not being provisioned gives the SQL
   * expression of the endpoint's connection string and the endpoint's own id
   * (not the lakehouse's id).
   */
  lemma LakehouseEndpoint(itemType: string, ws: Resolved, resolveItem: ItemKind -> Result<Resolved, Error>,
                          fetch: string -> Value, pbienv: string)
    requires Lower(itemType) == "lakehouse" && resolveItem(Lakehouse).Ok?
    requires var item := resolveItem(Lakehouse).value;
      var info := EndpointOf(Lakehouse, item.id, fetch(ItemPath(ws.id, Lakehouse, item.id)));
      info.Ok? && info.value.provisioningStatus != Str("InProgress")
    ensures var item := resolveItem(Lakehouse).value;
      var body := fetch(ItemPath(ws.id, Lakehouse, item.id));
      var sqlprop := Cell(Cell(body.fields, "properties").fields, "sqlEndpointProperties");
      GenerateSharedExpression(itemType, Ok(ws), resolveItem, true, fetch, pbienv) ==
        Ok(SqlExpression(PyStr(Cell(sqlprop.fields, "connectionString")), PyStr(Cell(sqlprop.fields, "id"))))
  {
    ParseItemKindSpec(itemType);
  }

  /**
   * Without the SQL endpoint nothing is fetched: the expression reads the item
   * straight from OneLake under the resolved workspace and item ids.
   */
  lemma OneLakeBranch(itemType: string, k: ItemKind, ws: Resolved, resolveItem: ItemKind -> Result<Resolved, Error>,
                      fetch: string -> Value, pbienv: string)
    requires ParseItemKind(itemType) == Ok(k) && resolveItem(k).Ok?
    ensures GenerateSharedExpression(itemType, Ok(ws), resolveItem, false, fetch, pbienv) ==
            Ok(OneLakeExpression(pbienv, ws.id, resolveItem(k).value.id))
  {
  }

  /** A warehouse is its own database: the expression names the item id and the warehouse's connection string. */
  lemma WarehouseEndpoint(itemType: string, ws: Resolved, resolveItem: ItemKind -> Result<Resolved, Error>,
                          fetch: string -> Value, pbienv: string)
    requires Lower(itemType) == "warehouse" && resolveItem(Warehouse).Ok?
    requires var item := resolveItem(Warehouse).value;
      var body := fetch(ItemPath(ws.id, Warehouse, item.id));
      body.Obj? && Cell(body.fields, "properties").Obj?
    ensures var item := resolveItem(Warehouse).value;
      var body := fetch(ItemPath(ws.id, Warehouse, item.id));
      GenerateSharedExpression(itemType, Ok(ws), resolveItem, true, fetch, pbienv) ==
        Ok(SqlExpression(PyStr(Cell(Cell(body.fields, "properties").fields, "connectionString")), item.id))
  {
    ParseItemKindSpec(itemType);
    assert ParseItemKind(itemType) == Ok(Warehouse);
    var item := resolveItem(Warehouse).value;
    var body := fetch(ItemPath(ws.id, Warehouse, item.id));
    var props := Cell(body.fields, "properties");
    var cs := Cell(props.fields, "connectionString");
    assert EndpointOf(Warehouse, item.id, body) == Ok(EndpointInfo(cs, Str(item.id), Null));
    assert PyStr(Str(item.id)) == item.id;
    assert GenerateSharedExpression(itemType, Ok(ws), resolveItem, true, fetch, pbienv) ==
           Ok(SqlExpression(PyStr(cs), PyStr(Str(item.id))));
  }
}
