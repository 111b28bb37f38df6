/**
 * The `AlertsTable` of the history page: five placeholder rows while loading,
 * one row per alert otherwise, or a single "no records" row spanning the
 * table's four columns.
 */
module AlertsTable {
  import opened RecentAlerts

  /** The number of columns of the table. */
  const ColumnCount := 4

  /** The number of placeholder rows shown while loading. */
  const PlaceholderCount := 5

  /** A row of the table's body; an alert's timestamp is still unformatted. */
  datatype TableRow =
    | AlertRow(key: int, animalId: string, description: string, badge: Badge, severity: string, timestamp: string)
    | PlaceholderRow(key: int)
    | NoRecordsRow(colSpan: nat)

  /** How the table shows one alert; the badge comes from the same severity table as the card's. */
  function RowOf(a: Alert): TableRow {
    AlertRow(a.id, a.animalId, a.description, SeverityBadge(a.severity), a.severity, a.timestamp)
  }

  /** `alerts.map(...)`: one row per alert, in order. */
  function RowsOf(alerts: seq<Alert>): (r: seq<TableRow>)
    ensures |r| == |alerts|
    ensures forall i :: 0 <= i < |alerts| ==> r[i] == RowOf(alerts[i])
  {
    if alerts == [] then [] else [RowOf(alerts[0])] + RowsOf(alerts[1..])
  }

  /** `Array.from({ length: n }).map((_, i) => ...)`: placeholder rows keyed 0 to n - 1. */
  function Placeholders(n: nat): (r: seq<TableRow>)
    ensures |r| == n
    ensures forall i :: 0 <= i < n ==> r[i] == PlaceholderRow(i)
  {
    if n == 0 then [] else Placeholders(n - 1) + [PlaceholderRow(n - 1)]
  }

  /** The table's body for a list of alerts and a loading flag. */
  function ShowAlertsTable(alerts: seq<Alert>, isLoading: bool): (rows: seq<TableRow>)
    ensures isLoading ==> |rows| == 5 && forall i :: 0 <= i < 5 ==> rows[i] == PlaceholderRow(i)
    ensures !isLoading && |alerts| > 0 ==>
      |rows| == |alerts| && forall i :: 0 <= i < |alerts| ==> rows[i] == RowOf(alerts[i])
    ensures !isLoading && |alerts| == 0 ==> rows == [NoRecordsRow(4)]
  {
    if isLoading then Placeholders(PlaceholderCount)
    else if |alerts| > 0 then RowsOf(alerts)
    else [NoRecordsRow(ColumnCount)]
  }

  /**
   * The table's badge follows the same severity table: the three known
   * severities, an inherited `Object.prototype` member for its own name, and
   * `default` for anything else.
   */
  lemma TableBadges(a: Alert)
    ensures RowOf(a).badge == Destructive <==> a.severity == "Yüksek"
    ensures RowOf(a).badge == Secondary <==> a.severity == "Orta"
    ensures RowOf(a).badge == Outline <==> a.severity == "Düşük"
    ensures RowOf(a).badge == Inherited(a.severity) <==> a.severity in ObjectPrototypeKeys
    ensures RowOf(a).badge == Default <==>
      (a.severity != "Yüksek" && a.severity != "Orta" && a.severity != "Düşük" && a.severity !in ObjectPrototypeKeys)
  {
  }
}
