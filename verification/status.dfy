/** The sensor-status classifier of utils.ts: a raw status string and the
    kind of sensor it came from map to one of four operator-facing tiers,
    and each tier maps to the badge's text and dot styles. */
module Status {
  import opened Options
  import opened Text

  /** `StatusColor` in types.ts. Secondary means "no data", not an error. */
  datatype Severity = Success | Warning | Danger | Secondary

  /** `StatusType` in types.ts: door contacts follow their own rules. */
  datatype StatusType = Normal | Door

  // Fault keywords: "fault", "abnormal", "disconnected".
  const Fault: string := "故障"
  const Abnormal: string := "異常"
  const Disconnected: string := "斷線"

  // Door literals: "open", "closed".
  const Opened: string := "開啟"
  const Closed: string := "關閉"

  // Known-good literals of the other sensors: "normal", "communication normal".
  const Ok: string := "正常"
  const CommOk: string := "通訊正常"

  /** `val?.trim() || ""`: an absent value reads as the empty string. */
  function Clean(val: Option<string>): string {
    match val
    case None => ""
    case Some(s) => Trim(s)
  }

  /** The cleaned value mentions one of the fault keywords. */
  predicate HasFault(c: string) {
    Contains(c, Fault) || Contains(c, Abnormal) || Contains(c, Disconnected)
  }

  /** The exact literals that may be shown as healthy for a sensor kind. */
  predicate KnownGood(kind: StatusType, c: string) {
    match kind
    case Door => c == Closed
    case Normal => c == Ok || c == CommOk || c == Closed
  }

  /** `getStatusColor`: the rules are tried in a fixed order and the first
      that matches decides. The postconditions are the safety policy: a fault
      keyword always wins, and an unknown value is never shown as healthy. */
  function GetStatusColor(val: Option<string>, kind: StatusType): (r: Severity)
    ensures HasFault(Clean(val)) ==> r == Danger
    ensures r == Success ==> KnownGood(kind, Clean(val))
    ensures r == Warning ==> kind == Door && Clean(val) == Opened
    ensures r == Secondary ==> kind == Door || Clean(val) == ""
  {
    var c := Clean(val);
    if HasFault(c) then Danger
    else if kind == Door then
      if c == Opened then Warning
      else if c == Closed then Success
      else Secondary
    else if c == Ok || c == CommOk || c == Closed then Success
    else if c != "" then Danger
    else Secondary
  }

  /** A keyword whose first character is absent cannot occur. */
  lemma LeadMissing(c: string, sub: string)
    requires |sub| > 0 && sub[0] !in c
    ensures !Contains(c, sub)
  {
    ContainsSpec(c, sub);
  }

  /** None of the literals the classifier compares against contains a fault keyword. */
  lemma LiteralsAreFaultFree()
    ensures !HasFault(Opened) && !HasFault(Closed) && !HasFault(Ok) && !HasFault(CommOk) && !HasFault("")
  {
    forall c | c in [Opened, Closed, Ok, CommOk, ""]
      ensures !HasFault(c)
    {
      LeadMissing(c, Fault);
      LeadMissing(c, Abnormal);
      LeadMissing(c, Disconnected);
    }
  }

  /** Success is reached exactly by the known-good literals of the kind. */
  lemma SuccessIffKnownGood(val: Option<string>, kind: StatusType)
    ensures GetStatusColor(val, kind) == Success <==> KnownGood(kind, Clean(val))
  {
    LiteralsAreFaultFree();
  }

  /** Warning is reached exactly by an open door. */
  lemma WarningIffDoorOpen(val: Option<string>, kind: StatusType)
    ensures GetStatusColor(val, kind) == Warning <==> kind == Door && Clean(val) == Opened
  {
    LiteralsAreFaultFree();
  }

  /** Danger is a fault keyword for either kind, or, for the normal kind, any
      other value that is neither empty nor known-good. A door never turns
      danger without a fault keyword. */
  lemma DangerIffFaultOrUnknown(val: Option<string>, kind: StatusType)
    ensures GetStatusColor(val, kind) == Danger <==>
      HasFault(Clean(val)) || (kind == Normal && Clean(val) != "" && !KnownGood(Normal, Clean(val)))
  {
    LiteralsAreFaultFree();
  }

  /** Secondary is a fault-free value the kind has no rule for: any such
      value for a door, only the empty value otherwise. */
  lemma SecondaryIffNoRule(val: Option<string>, kind: StatusType)
    ensures GetStatusColor(val, kind) == Secondary <==>
      !HasFault(Clean(val)) &&
      (if kind == Door then Clean(val) != Opened && Clean(val) != Closed else Clean(val) == "")
  {
    LiteralsAreFaultFree();
  }

  /** An absent, empty or whitespace-only value is secondary for both kinds. */
  lemma BlankIsSecondary(s: string, kind: StatusType)
    ensures GetStatusColor(None, kind) == Secondary
    ensures AllWhitespace(s) ==> GetStatusColor(Some(s), kind) == Secondary
  {
    LiteralsAreFaultFree();
    TrimEmptyIffAllWhitespace(s);
  }

  /** Surrounding whitespace never changes the tier: the classifier sees only
      the trimmed value. */
  lemma {:induction false} TrimInvariant(s: string, kind: StatusType)
    ensures GetStatusColor(Some(s), kind) == GetStatusColor(Some(Trim(s)), kind)
  {
    TrimIdempotent(s);
  }

  /** `getStatusTextClass`: the badge's text, background and border classes. */
  function TextClass(color: Severity): string {
    match color
    case Success => "text-emerald-700 bg-emerald-100 border-emerald-200"
    case Warning => "text-amber-700 bg-amber-100 border-amber-200"
    case Danger => "text-rose-700 bg-rose-100 border-rose-200"
    case Secondary => "text-slate-500 bg-slate-100 border-slate-200"
  }

  /** `getStatusDotClass`: the badge's indicator-dot class. */
  function DotClass(color: Severity): string {
    match color
    case Success => "bg-emerald-500"
    case Warning => "bg-amber-500"
    case Danger => "bg-rose-500"
    case Secondary => "bg-slate-400"
  }

  /** The text-class map tells the four tiers apart. */
  lemma TextClassInjective(a: Severity, b: Severity)
    ensures TextClass(a) == TextClass(b) <==> a == b
  {
  }

  /** The dot-class map tells the four tiers apart. */
  lemma DotClassInjective(a: Severity, b: Severity)
    ensures DotClass(a) == DotClass(b) <==> a == b
  {
  }
}
