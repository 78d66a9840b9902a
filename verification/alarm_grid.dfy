/** The data logic of an alarm-station card in AlarmStationGrid.tsx: the six
    sensor readings are classified, rolled up worst-first into the card
    header's tier and danger ring, and the record time is cut down to its
    clock part. The markup itself is not modelled. */
module AlarmGrid {
  import opened Options
  import opened Text
  import opened Status

  /** `AlarmStationInfo` of types.ts. The readings and the record time may be
      absent: the classifier accepts null and the card reads the time with `?.`. */
  datatype AlarmStationInfo = AlarmStationInfo(
    recDateTime: Option<string>,
    stationId: string,
    stationName: string,
    cmdName: Option<string>,   // communication
    powered: Option<string>,   // mains power
    dc: Option<string>,        // backup battery
    door: Option<string>,      // door contact
    amp: Option<string>,       // amplifier
    trumpet: Option<string>)   // speaker

  /** The six monitored sensors of a station. */
  datatype Sensor = Communication | MainsPower | Battery | DoorContact | Amplifier | Trumpet

  /** The raw reading of one sensor. */
  function Reading(st: AlarmStationInfo, s: Sensor): Option<string> {
    match s
    case Communication => st.cmdName
    case MainsPower => st.powered
    case Battery => st.dc
    case DoorContact => st.door
    case Amplifier => st.amp
    case Trumpet => st.trumpet
  }

  /** Which rules a sensor's reading is classified by. */
  function KindOf(s: Sensor): StatusType {
    if s == DoorContact then Door else Normal
  }

  /** The tier a sensor's badge shows; each badge classifies its own field. */
  function Badge(st: AlarmStationInfo, s: Sensor): Severity {
    match s
    case Communication => GetStatusColor(st.cmdName, Normal)
    case MainsPower => GetStatusColor(st.powered, Normal)
    case Battery => GetStatusColor(st.dc, Normal)
    case Amplifier => GetStatusColor(st.amp, Normal)
    case Trumpet => GetStatusColor(st.trumpet, Normal)
    case DoorContact => GetStatusColor(st.door, Door)
  }

  /** The order of the roll-up list. */
  const RollUpOrder: seq<Sensor> := [Communication, MainsPower, Battery, DoorContact, Amplifier, Trumpet]

  /** The `statuses` list the header is computed from. */
  function Statuses(st: AlarmStationInfo): seq<Severity> {
    [ GetStatusColor(st.cmdName, Normal),
      GetStatusColor(st.powered, Normal),
      GetStatusColor(st.dc, Normal),
      GetStatusColor(st.door, Door),
      GetStatusColor(st.amp, Normal),
      GetStatusColor(st.trumpet, Normal) ]
  }

  /** The door is classified by the door rules and every other sensor by the
      normal rules, on its own reading. */
  lemma BadgeUsesKind(st: AlarmStationInfo, s: Sensor)
    ensures Badge(st, s) == GetStatusColor(Reading(st, s), KindOf(s))
    ensures KindOf(s) == Door <==> s == DoorContact
  {
  }

  /** Where a sensor sits in the roll-up list. */
  function Position(s: Sensor): (i: nat)
    ensures i < |RollUpOrder| && RollUpOrder[i] == s
  {
    match s
    case Communication => 0
    case MainsPower => 1
    case Battery => 2
    case DoorContact => 3
    case Amplifier => 4
    case Trumpet => 5
  }

  /** The roll-up list agrees entry by entry with the badges: the same
      field, classified by the same rules. */
  lemma StatusesMatchBadges(st: AlarmStationInfo)
    ensures |Statuses(st)| == |RollUpOrder|
    ensures forall i :: 0 <= i < |RollUpOrder| ==> Statuses(st)[i] == Badge(st, RollUpOrder[i])
  {
    var ss := Statuses(st);
    forall i | 0 <= i < |RollUpOrder|
      ensures ss[i] == Badge(st, RollUpOrder[i])
    {
      if i == 0 { assert RollUpOrder[i] == Communication; }
      else if i == 1 { assert RollUpOrder[i] == MainsPower; }
      else if i == 2 { assert RollUpOrder[i] == Battery; }
      else if i == 3 { assert RollUpOrder[i] == DoorContact; }
      else if i == 4 { assert RollUpOrder[i] == Amplifier; }
      else { assert RollUpOrder[i] == Trumpet; }
    }
  }

  /** The roll-up list covers every sensor, so it holds exactly the tiers
      some badge shows. */
  lemma StatusesAreBadges(st: AlarmStationInfo)
    ensures forall s: Sensor :: Statuses(st)[Position(s)] == Badge(st, s)
    ensures forall x :: x in Statuses(st) <==> exists s :: Badge(st, s) == x
  {
    StatusesMatchBadges(st);
    var ss := Statuses(st);
    forall s: Sensor
      ensures ss[Position(s)] == Badge(st, s)
    {
      assert ss[Position(s)] == Badge(st, RollUpOrder[Position(s)]);
    }
    forall x | x in ss
      ensures exists s :: Badge(st, s) == x
    {
      var i :| 0 <= i < |ss| && ss[i] == x;
      assert Badge(st, RollUpOrder[i]) == x;
    }
  }

  /** The tier of the card header. */
  datatype HeaderTier = DangerHeader | WarningHeader | NeutralHeader

  /** The header tier, worst first: any danger, else any warning, else neutral. */
  function HeaderTierOf(ss: seq<Severity>): HeaderTier {
    var hasDanger := Danger in ss;
    var hasWarning := Warning in ss;
    if hasDanger then DangerHeader
    else if hasWarning then WarningHeader
    else NeutralHeader
  }

  /** The header's style classes. */
  function HeaderClass(t: HeaderTier): string {
    match t
    case DangerHeader => "bg-rose-50 border-rose-100 text-rose-800"
    case WarningHeader => "bg-amber-50 border-amber-100 text-amber-800"
    case NeutralHeader => "bg-white border-slate-100 text-slate-800"
  }

  /** The extra card class that draws the danger ring. */
  function RingClass(hasDanger: bool): string {
    if hasDanger then "ring-2 ring-rose-500/20" else ""
  }

  /** How far a tier raises the header: success and secondary not at all. */
  function Rank(s: Severity): nat {
    match s
    case Danger => 2
    case Warning => 1
    case Success => 0
    case Secondary => 0
  }

  /** The highest rank in a list of tiers, 0 for the empty list. */
  function WorstRank(ss: seq<Severity>): (r: nat)
    ensures forall i :: 0 <= i < |ss| ==> Rank(ss[i]) <= r
    ensures r == 0 || exists i :: 0 <= i < |ss| && Rank(ss[i]) == r
    decreases |ss|
  {
    if ss == [] then 0
    else
      var rest := WorstRank(ss[1..]);
      if Rank(ss[0]) >= rest then Rank(ss[0])
      else
        assert forall i :: 1 <= i < |ss| ==> ss[i] == ss[1..][i - 1];
        rest
  }

  function TierOfRank(r: nat): HeaderTier {
    if r >= 2 then DangerHeader else if r == 1 then WarningHeader else NeutralHeader
  }

  /** The header shows the worst tier among the statuses, so success and
      secondary never raise it. */
  lemma {:induction false} HeaderTierIsWorst(ss: seq<Severity>)
    ensures HeaderTierOf(ss) == TierOfRank(WorstRank(ss))
  {
    var r := WorstRank(ss);
    if r != 0 {
      var i :| 0 <= i < |ss| && Rank(ss[i]) == r;
    }
  }

  /** The header depends only on which tiers occur, not on their order,
      multiplicity or source field. */
  lemma HeaderTierOnlyOnOccurrence(a: seq<Severity>, b: seq<Severity>)
    requires forall x :: x in a <==> x in b
    ensures HeaderTierOf(a) == HeaderTierOf(b)
  {
  }

  /** The placeholder shown when the record time has no clock part. */
  const NoTime: string := "--:--"

  /** `RecDateTime?.split(' ')[1] || '--:--'`: the second space-separated
      token of the record time, or the placeholder. */
  function UpdatedTime(rec: Option<string>): (r: string)
    ensures r == NoTime || (r != "" && ' ' !in r)
    ensures rec == None ==> r == NoTime
  {
    match rec
    case None => NoTime
    case Some(s) =>
      var tokens := Split(s, ' ');
      if |tokens| >= 2 && tokens[1] != "" then tokens[1] else NoTime
  }

  /** For a time made of space-free tokens, the shown time is the second
      token when there is a non-empty one, and the placeholder otherwise. */
  lemma {:induction false} UpdatedTimeOfTokens(tokens: seq<string>)
    requires |tokens| >= 1
    requires forall k :: 0 <= k < |tokens| ==> ' ' !in tokens[k]
    ensures UpdatedTime(Some(Join(tokens, ' '))) ==
      if |tokens| >= 2 && tokens[1] != "" then tokens[1] else NoTime
  {
    SplitJoin(tokens, ' ');
  }

  /** A time without a space shows the placeholder. */
  lemma {:induction false} NoSpaceNoClock(s: string)
    requires ' ' !in s
    ensures UpdatedTime(Some(s)) == NoTime
  {
    UpdatedTimeOfTokens([s]);
  }

  /** "date clock" shows the clock when it is non-empty. */
  lemma {:induction false} UpdatedTimeShowsClock(date: string, clock: string)
    requires ' ' !in date && ' ' !in clock
    ensures UpdatedTime(Some(date + " " + clock)) == (if clock == "" then NoTime else clock)
  {
    UpdatedTimeOfTokens([date, clock]);
  }

  /** A space-free date, a space, a space-free clock and a space split into
      the date, the clock, and the pieces of whatever follows. */
  lemma {:induction false} SplitDateClock(date: string, clock: string, rest: string)
    requires ' ' !in date && ' ' !in clock
    ensures Split(date + " " + clock + " " + rest, ' ') == [date, clock] + Split(rest, ' ')
  {
    var mid := clock + (" " + rest);
    SplitFirstPiece(clock, rest, ' ');
    SplitFirstPiece(date, mid, ' ');
    assert date + " " + clock + " " + rest == date + (" " + mid);
  }

  /** Whatever follows the clock after a further space does not change what is shown. */
  lemma {:induction false} UpdatedTimeIgnoresRest(date: string, clock: string, rest: string)
    requires ' ' !in date && ' ' !in clock
    ensures UpdatedTime(Some(date + " " + clock + " " + rest)) == (if clock == "" then NoTime else clock)
  {
    SplitDateClock(date, clock, rest);
  }

  /** What one station card shows, beyond its markup. */
  datatype Card = Card(
    key: string,
    name: string,
    header: HeaderTier,
    headerClass: string,
    ringClass: string,
    updated: string)

  /** The header of a station's card is danger exactly when some badge is,
      warning exactly when no badge is danger and some badge warns, and
      neutral exactly when every badge is success or secondary. */
  lemma StationHeader(st: AlarmStationInfo)
    ensures HeaderTierOf(Statuses(st)) == DangerHeader <==> exists s :: Badge(st, s) == Danger
    ensures HeaderTierOf(Statuses(st)) == WarningHeader <==>
      (forall s :: Badge(st, s) != Danger) && exists s :: Badge(st, s) == Warning
    ensures HeaderTierOf(Statuses(st)) == NeutralHeader <==>
      forall s :: Badge(st, s) == Success || Badge(st, s) == Secondary
  {
    StatusesAreBadges(st);
  }

  /** The data of one card, as the `alarms.map` callback computes it. */
  function CardOf(st: AlarmStationInfo): (c: Card)
    ensures c.key == st.stationId && c.name == st.stationName
    ensures c.header == DangerHeader <==> exists s :: Badge(st, s) == Danger
    ensures c.header == WarningHeader <==>
      (forall s :: Badge(st, s) != Danger) && exists s :: Badge(st, s) == Warning
    ensures c.header == NeutralHeader <==>
      forall s :: Badge(st, s) == Success || Badge(st, s) == Secondary
    ensures c.ringClass == RingClass(c.header == DangerHeader)
    ensures c.ringClass != "" <==> c.header == DangerHeader
    ensures c.headerClass == HeaderClass(c.header)
    ensures c.updated == UpdatedTime(st.recDateTime)
  {
    StationHeader(st);
    var statuses := Statuses(st);
    var hasDanger := Danger in statuses;
    var header := HeaderTierOf(statuses);
    Card(st.stationId, st.stationName, header, HeaderClass(header), RingClass(hasDanger),
         UpdatedTime(st.recDateTime))
  }

  /** The grid: one card per station, in the order given, each carrying
      everything `CardOf` promises about its station. */
  function Grid(alarms: seq<AlarmStationInfo>): (cards: seq<Card>)
    ensures |cards| == |alarms|
    ensures forall i :: 0 <= i < |alarms| ==> cards[i] == CardOf(alarms[i])
    ensures forall i :: 0 <= i < |alarms| ==>
      cards[i].key == alarms[i].stationId &&
      (cards[i].ringClass != "" <==> exists s :: Badge(alarms[i], s) == Danger)
  {
    seq(|alarms|, i requires 0 <= i < |alarms| => CardOf(alarms[i]))
  }
}
