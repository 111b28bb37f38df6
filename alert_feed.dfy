/**
 * The alert list of the dashboard page. `src/app/dashboard/page.tsx` and
 * `src/app/page.tsx` hold the same initial alerts, the same `addAlert` and the
 * same active-alarm card, line for line; this module models both.
 */
module AlertFeed {
  import opened RecentAlerts

  /** `initialAlerts`: four alerts with ids 1 to 4. */
  const InitialAlerts: seq<Alert> := [
    Alert(1, "Hayvan #842", "Uzun süreli hareketsizlik tespit edildi.", "5 dakika önce", "Yüksek"),
    Alert(2, "Hayvan #109", "Grupdan ayrıldı.", "2 saat önce", "Orta"),
    Alert(3, "Hayvan #331", "Beslenme zamanı topallama gözlendi.", "8 saat önce", "Yüksek"),
    Alert(4, "Genel", "A Bölgesinde grup hareketliliğinde azalma.", "1 gün önce", "Düşük")
  ]

  /** The alert `addAlert` builds for an anomaly seen at a location. */
  function NewAlert(id: int, location: string, anomaly: string): Alert {
    Alert(id, "Konum: " + location, anomaly, "Şimdi", "Yüksek")
  }

  /** The ids of a list of alerts. */
  function IdSet(alerts: seq<Alert>): set<int> {
    set i | 0 <= i < |alerts| :: alerts[i].id
  }

  /** The numbers 1 to n. */
  function Range(n: nat): (r: set<int>)
    ensures forall k :: k in r <==> 1 <= k <= n
  {
    if n == 0 then {} else Range(n - 1) + {n}
  }

  /** No two alerts of the list share an id. */
  predicate DistinctIds(alerts: seq<Alert>) {
    forall i, j :: 0 <= i < j < |alerts| ==> alerts[i].id != alerts[j].id
  }

  /** The numbers 1 to n are n numbers. */
  lemma {:induction false} RangeSize(n: nat)
    ensures |Range(n)| == n
  {
    if n > 0 {
      RangeSize(n - 1);
      assert Range(n) == Range(n - 1) + {n};
    }
  }

  /** A list has no more distinct ids than alerts. */
  lemma {:induction false} IdSetSize(alerts: seq<Alert>)
    ensures |IdSet(alerts)| <= |alerts|
  {
    if alerts != [] {
      IdSetSize(alerts[1..]);
      assert IdSet(alerts) == {alerts[0].id} + IdSet(alerts[1..]) by {
        forall x | x in IdSet(alerts) ensures x in {alerts[0].id} + IdSet(alerts[1..]) {
          var i :| 0 <= i < |alerts| && alerts[i].id == x;
          if i > 0 {
            assert alerts[1..][i - 1] == alerts[i];
          }
        }
        forall x | x in IdSet(alerts[1..]) ensures x in IdSet(alerts) {
          var i :| 0 <= i < |alerts[1..]| && alerts[1..][i].id == x;
          assert alerts[i + 1] == alerts[1..][i];
        }
      }
    }
  }

  /** Dropping an alert whose id another alert repeats loses no id. */
  lemma DropRepeatedId(alerts: seq<Alert>, i: nat, j: nat)
    requires i < j < |alerts| && alerts[i].id == alerts[j].id
    ensures IdSet(alerts[..j] + alerts[j + 1..]) == IdSet(alerts)
  {
    var rest := alerts[..j] + alerts[j + 1..];
    forall x | x in IdSet(alerts) ensures x in IdSet(rest) {
      var k :| 0 <= k < |alerts| && alerts[k].id == x;
      if k < j {
        assert rest[k] == alerts[k];
      } else if k == j {
        assert rest[i] == alerts[i];
      } else {
        assert rest[k - 1] == alerts[k];
      }
    }
    forall x | x in IdSet(rest) ensures x in IdSet(alerts) {
      var k :| 0 <= k < |rest| && rest[k].id == x;
      if k < j {
        assert rest[k] == alerts[k];
      } else {
        assert rest[k] == alerts[k + 1];
      }
    }
  }

  /** When the ids of n alerts are exactly 1 to n, no id occurs twice. */
  lemma IdsOneToNAreDistinct(alerts: seq<Alert>)
    requires IdSet(alerts) == Range(|alerts|)
    ensures DistinctIds(alerts)
  {
    RangeSize(|alerts|);
    forall i, j | 0 <= i < j < |alerts| ensures alerts[i].id != alerts[j].id {
      if alerts[i].id == alerts[j].id {
        // Then n ids would fit among the n - 1 other alerts.
        DropRepeatedId(alerts, i, j);
        IdSetSize(alerts[..j] + alerts[j + 1..]);
      }
    }
  }

  /** The initial alerts carry the ids 1 to 4. */
  lemma InitialIds()
    ensures IdSet(InitialAlerts) == Range(|InitialAlerts|) == {1, 2, 3, 4}
  {
    var s := InitialAlerts;
    assert s[0].id == 1 && s[1].id == 2 && s[2].id == 3 && s[3].id == 4;
  }

  /** Every id of the list with the next alert prepended lies in 1 to n + 1. */
  lemma AddedIdsInRange(alerts: seq<Alert>, added: seq<Alert>)
    requires IdSet(alerts) == Range(|alerts|)
    requires |added| == |alerts| + 1 && added[0].id == |alerts| + 1 && added[1..] == alerts
    ensures IdSet(added) <= Range(|alerts| + 1)
  {
    forall x | x in IdSet(added) ensures x in Range(|alerts| + 1) {
      var k :| 0 <= k < |added| && added[k].id == x;
      if k > 0 {
        assert added[k] == alerts[k - 1];
        assert alerts[k - 1].id in IdSet(alerts);
      }
    }
  }

  /** Every number 1 to n + 1 is an id of the list with the next alert prepended. */
  lemma RangeInAddedIds(alerts: seq<Alert>, added: seq<Alert>)
    requires IdSet(alerts) == Range(|alerts|)
    requires |added| == |alerts| + 1 && added[0].id == |alerts| + 1 && added[1..] == alerts
    ensures Range(|alerts| + 1) <= IdSet(added)
  {
    forall x | x in Range(|alerts| + 1) ensures x in IdSet(added) {
      if x == |alerts| + 1 {
        assert added[0].id == x;
      } else {
        assert x in IdSet(alerts);
        var k :| 0 <= k < |alerts| && alerts[k].id == x;
        assert added[k + 1] == alerts[k];
      }
    }
  }

  /** Prepending the alert with the next id keeps the ids exactly 1 to n. */
  lemma AddAlertKeepsIds(alerts: seq<Alert>, location: string, anomaly: string)
    requires IdSet(alerts) == Range(|alerts|)
    ensures IdSet([NewAlert(|alerts| + 1, location, anomaly)] + alerts) == Range(|alerts| + 1)
  {
    var added := [NewAlert(|alerts| + 1, location, anomaly)] + alerts;
    assert added[1..] == alerts;
    AddedIdsInRange(alerts, added);
    RangeInAddedIds(alerts, added);
  }

  // ---------------------------------------------------------------------------
  // The active-alarm card: `alerts.length.toString()`
  // ---------------------------------------------------------------------------

  /** The decimal digit for d. */
  function DigitChar(d: nat): (c: char)
    requires d < 10
    ensures '0' <= c <= '9' && c as int - '0' as int == d
  {
    ('0' as int + d) as char
  }

  /** The string is made of decimal digits only. */
  predicate AllDigits(s: string) {
    forall i :: 0 <= i < |s| ==> '0' <= s[i] <= '9'
  }

  /** `n.toString()` for a natural number: its decimal digits, without leading zeros. */
  function Decimal(n: nat): (s: string)
    ensures |s| >= 1 && AllDigits(s)
    ensures |s| > 1 ==> s[0] != '0'
  {
    if n < 10 then [DigitChar(n)] else Decimal(n / 10) + [DigitChar(n % 10)]
  }

  /** The number a string of decimal digits denotes. */
  function DecimalValue(s: string): nat
    requires AllDigits(s)
  {
    if s == [] then 0 else DecimalValue(s[..|s| - 1]) * 10 + (s[|s| - 1] as int - '0' as int)
  }

  /** Reading back the shown count gives the number it was made from. */
  lemma {:induction false} DecimalRoundTrip(n: nat)
    ensures DecimalValue(Decimal(n)) == n
  {
    if n >= 10 {
      DecimalRoundTrip(n / 10);
      var s := Decimal(n);
      assert s[..|s| - 1] == Decimal(n / 10);
    }
  }

  /** The page's `alerts` state. */
  class AlertBoard {
    var alerts: seq<Alert>

    /** The ids are exactly 1 to the number of alerts. */
    ghost predicate Valid()
      reads this
    {
      IdSet(alerts) == Range(|alerts|)
    }

    /** `useState(initialAlerts)`. */
    constructor ()
      ensures Valid()
      ensures alerts == InitialAlerts
    {
      InitialIds();
      alerts := InitialAlerts;
    }

    /**
     * `addAlert(location, anomaly)`: the new alert takes the next id and goes
     * in front; the alerts that were there follow, unchanged and in order.
     */
    method AddAlert(location: string, anomaly: string)
      requires Valid()
      modifies this
      ensures Valid()
      ensures alerts == [NewAlert(|old(alerts)| + 1, location, anomaly)] + old(alerts)
      ensures |alerts| == |old(alerts)| + 1 && alerts[1..] == old(alerts)
    {
      AddAlertKeepsIds(alerts, location, anomaly);
      alerts := [NewAlert(|alerts| + 1, location, anomaly)] + alerts;
    }

    /** The value of the "Aktif Alarmlar" card: the number of alerts, in decimal. */
    function ActiveAlarms(): (shown: string)
      reads this
      ensures AllDigits(shown) && DecimalValue(shown) == |alerts|
    {
      DecimalRoundTrip(|alerts|);
      Decimal(|alerts|)
    }
  }
}
