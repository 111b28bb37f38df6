/**
 * The `RecentAlerts` card: the alert record shared by every alert view, the
 * severity-to-badge table, and the choice between skeletons, the "no active
 * alarms" message and the first three alerts.
 */
module RecentAlerts {

  /** An alert record. Its id serves only as a React key, and is an integer here. */
  datatype Alert = Alert(id: int, animalId: string, description: string, timestamp: string, severity: string)

  /**
   * What `severityMap[severity] || 'default'` gives: one of the badge
   * variants, or, for a severity naming a member that every object inherits
   * from `Object.prototype`, that inherited member (a truthy value).
   */
  datatype Badge = Destructive | Secondary | Outline | Default | Inherited(key: string)

  /** The property names every object literal inherits from `Object.prototype`. */
  const ObjectPrototypeKeys: set<string> := {
    "constructor", "hasOwnProperty", "isPrototypeOf", "propertyIsEnumerable",
    "toLocaleString", "toString", "valueOf", "__proto__",
    "__defineGetter__", "__defineSetter__", "__lookupGetter__", "__lookupSetter__"
  }

  /** `severityMap`: the three known severities and their badges. */
  const SeverityMap: map<string, Badge> := map["Yüksek" := Destructive, "Orta" := Secondary, "Düşük" := Outline]

  /**
   * `severityMap[severity] || 'default'`: the map's own entry, else an
   * inherited member (truthy, so it wins over the fallback), else `default`.
   */
  function SeverityBadge(severity: string): (b: Badge)
    ensures severity == "Yüksek" ==> b == Destructive
    ensures severity == "Orta" ==> b == Secondary
    ensures severity == "Düşük" ==> b == Outline
    ensures b.Inherited? <==> severity in ObjectPrototypeKeys
    ensures b.Inherited? ==> b.key == severity
    ensures b == Default <==>
      (severity != "Yüksek" && severity != "Orta" && severity != "Düşük" && severity !in ObjectPrototypeKeys)
  {
    if severity in SeverityMap then SeverityMap[severity]
    else if severity in ObjectPrototypeKeys then Inherited(severity)
    else Default
  }

  /** One alert as the card shows it; the timestamp is still unformatted. */
  datatype AlertItem = AlertItem(key: int, animalId: string, badge: Badge, severity: string, description: string, timestamp: string)

  /** What the card's body shows. */
  datatype RecentView = Skeletons(count: nat) | NoActiveAlarms | Items(items: seq<AlertItem>)

  /** How the card shows one alert. */
  function ItemOf(a: Alert): AlertItem {
    AlertItem(a.id, a.animalId, SeverityBadge(a.severity), a.severity, a.description, a.timestamp)
  }

  /** `alerts.map(...)`: one item per alert, in order. */
  function ItemsOf(alerts: seq<Alert>): (r: seq<AlertItem>)
    ensures |r| == |alerts|
    ensures forall i :: 0 <= i < |alerts| ==> r[i] == ItemOf(alerts[i])
  {
    if alerts == [] then [] else [ItemOf(alerts[0])] + ItemsOf(alerts[1..])
  }

  /** The card's body for a list of alerts and a loading flag. */
  function ShowRecentAlerts(alerts: seq<Alert>, isLoading: bool): (r: RecentView)
    ensures isLoading ==> r == Skeletons(3)
    ensures !isLoading && |alerts| == 0 ==> r == NoActiveAlarms
    ensures !isLoading && |alerts| > 0 ==>
      && r.Items?
      && |r.items| == (if |alerts| < 3 then |alerts| else 3)
      && forall i :: 0 <= i < |r.items| ==> r.items[i] == ItemOf(alerts[i])
  {
    if isLoading then Skeletons(3)
    else if |alerts| == 0 then NoActiveAlarms
    else Items(ItemsOf(alerts[..if |alerts| < 3 then |alerts| else 3]))
  }
}
