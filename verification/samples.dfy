/** The sample stations the dashboard ships with, and what the classifier
    and the card roll-up make of them. */
module Samples {
  import opened Options
  import opened Text
  import opened Status
  import opened AlarmGrid

  function Station(id: string, name: string, time: string,
                   cmd: string, power: string, dc: string,
                   door: string, amp: string, trumpet: string): AlarmStationInfo
  {
    AlarmStationInfo(Some(time), id, name, Some(cmd), Some(power), Some(dc),
                     Some(door), Some(amp), Some(trumpet))
  }

  /** Station S001: everything healthy, door closed. */
  const Dam: AlarmStationInfo :=
    Station("S001", "大壩控制站", "2023-10-27" + " " + "10:00:00",
            "通訊正常", "正常", "正常", "關閉", "正常", "正常")

  /** Station S002: mains power abnormal, door open. */
  const WestGate: AlarmStationInfo :=
    Station("S002", "西口監測站", "2023-10-27 10:05:00",
            "通訊正常", "異常", "正常", "開啟", "正常", "正常")

  /** Station S003: disconnected, every other reading empty. */
  const EastGate: AlarmStationInfo :=
    Station("S003", "東口監測站", "2023-10-27 09:55:00",
            "斷線", "", "", "", "", "")

  /** Station S004: battery "voltage low" (an unknown value), speaker faulty. */
  const Supply: AlarmStationInfo :=
    Station("S004", "送水管理站", "2023-10-27 10:01:00",
            "通訊正常", "正常", "電壓過低", "關閉", "正常", "故障")

  /** A value without surrounding whitespace reaches the classifier unchanged. */
  lemma CleanStripped(x: string)
    requires Stripped(x)
    ensures Clean(Some(x)) == x
  {
    assert PaddedAt(x, x, 0);
    TrimUnique(x, x, 0);
  }

  /** Each fault keyword on its own is danger for both kinds. */
  lemma FaultSamples(kind: StatusType)
    ensures GetStatusColor(Some(Abnormal), kind) == Danger
    ensures GetStatusColor(Some(Fault), kind) == Danger
    ensures GetStatusColor(Some(Disconnected), kind) == Danger
  {
    CleanStripped(Abnormal);
    CleanStripped(Fault);
    CleanStripped(Disconnected);
    assert Contains(Abnormal, Abnormal) && Contains(Fault, Fault);
    assert Contains(Disconnected, Disconnected);
  }

  /** "Voltage low" is no known literal: danger for a sensor, grey for a door. */
  lemma UnknownSample()
    ensures GetStatusColor(Some("電壓過低"), Normal) == Danger
    ensures GetStatusColor(Some("電壓過低"), Door) == Secondary
  {
    var low := "電壓過低";
    CleanStripped(low);
    LeadMissing(low, Fault);
    LeadMissing(low, Abnormal);
    LeadMissing(low, Disconnected);
    DangerIffFaultOrUnknown(Some(low), Normal);
    SecondaryIffNoRule(Some(low), Door);
  }

  /** An open door is a warning, but the word means nothing to other sensors. */
  lemma OpenedSample()
    ensures GetStatusColor(Some(Opened), Door) == Warning
    ensures GetStatusColor(Some(Opened), Normal) == Danger
  {
    CleanStripped(Opened);
    WarningIffDoorOpen(Some(Opened), Door);
    DangerIffFaultOrUnknown(Some(Opened), Normal);
  }

  /** "Closed" is healthy for both kinds. */
  lemma ClosedSample(kind: StatusType)
    ensures GetStatusColor(Some(Closed), kind) == Success
  {
    CleanStripped(Closed);
    SuccessIffKnownGood(Some(Closed), kind);
  }

  /** "Normal" and "communication normal" are healthy. */
  lemma HealthySamples()
    ensures GetStatusColor(Some(Ok), Normal) == Success
    ensures GetStatusColor(Some(CommOk), Normal) == Success
  {
    CleanStripped(Ok);
    CleanStripped(CommOk);
    SuccessIffKnownGood(Some(Ok), Normal);
    SuccessIffKnownGood(Some(CommOk), Normal);
  }

  /** Surrounding whitespace around a healthy literal is ignored. */
  lemma PaddedSample()
    ensures GetStatusColor(Some(" 正常\n"), Normal) == Success
  {
    var padded := " 正常\n";
    assert padded[1..3] == Ok;
    assert PaddedAt(padded, Ok, 1);
    TrimUnique(padded, Ok, 1);
    TrimInvariant(padded, Normal);
    HealthySamples();
  }

  /** S001 shows a neutral header and no ring. */
  lemma DamCard()
    ensures CardOf(Dam).header == NeutralHeader && CardOf(Dam).ringClass == ""
  {
    HealthySamples();
    ClosedSample(Door);
    forall s: Sensor
      ensures Badge(Dam, s) == Success
    {
    }
  }

  /** S002's mains power is abnormal and its door open. */
  lemma WestGateBadges()
    ensures Badge(WestGate, MainsPower) == Danger
    ensures Badge(WestGate, DoorContact) == Warning
  {
    assert WestGate.powered == Some(Abnormal) && WestGate.door == Some(Opened);
    FaultSamples(Normal);
    OpenedSample();
  }

  /** S002 shows danger, with the ring, though its door only warns. */
  lemma WestGateCard()
    ensures CardOf(WestGate).header == DangerHeader && CardOf(WestGate).ringClass != ""
  {
    WestGateBadges();
  }

  /** S003 shows danger for its lost connection. */
  lemma EastGateCard()
    ensures CardOf(EastGate).header == DangerHeader
  {
    assert EastGate.cmdName == Some(Disconnected);
    FaultSamples(Normal);
    assert Badge(EastGate, Communication) == Danger;
  }

  /** S004's battery reading is unknown and its speaker faulty. */
  lemma SupplyBadges()
    ensures Badge(Supply, Battery) == Danger && Badge(Supply, Trumpet) == Danger
  {
    assert Supply.dc == Some("電壓過低") && Supply.trumpet == Some(Fault);
    FaultSamples(Normal);
    UnknownSample();
  }

  /** S004 shows danger. */
  lemma SupplyCard()
    ensures CardOf(Supply).header == DangerHeader
  {
    SupplyBadges();
  }

  /** S001's card shows the clock part of its record time. */
  lemma DamClock()
    ensures CardOf(Dam).updated == "10:00:00"
  {
    UpdatedTimeShowsClock("2023-10-27", "10:00:00");
  }
}
