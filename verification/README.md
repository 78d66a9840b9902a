# Reservoir dashboard: sensor-status classification and alarm-station roll-up

This project models the decision logic of a reservoir monitoring dashboard.
The dashboard shows water level, rainfall and a grid of remote alarm stations.
Each alarm station reports six raw status strings in Chinese:

- communication (`CmdName`)
- mains power (`Powered`)
- backup battery (`DC`)
- door (`Door`)
- amplifier (`Amp`)
- speaker (`Trumpet`)

The model covers two pieces of logic:

- **The status classifier** (`getStatusColor` in `utils.ts`). It maps an
  optional raw string and a sensor kind (`Normal` or `Door`) to one of four
  tiers: success, warning, danger or secondary. The rules, in priority order:
  1. The value is trimmed, and an absent value counts as "".
  2. Any value containing 故障 (fault), 異常 (abnormal) or 斷線 (disconnected)
     is danger.
  3. For a door, exactly 開啟 (open) is warning, exactly 關閉 (closed) is
     success, and everything else is secondary.
  4. For other sensors, exactly 正常 (normal), 通訊正常 (communication normal)
     or 關閉 is success.
  5. Any other non-empty value is danger, and the empty value is secondary.

  Each tier then maps to the badge's text classes and dot class
  (`getStatusTextClass`, `getStatusDotClass`).
- **The alarm-station card** (`components/AlarmStationGrid.tsx`).
  - The six readings are classified, the door with the door rules.
  - The header tier is worst-first: danger if any reading is danger, otherwise
    warning if any is warning, otherwise neutral.
  - The card draws a danger ring exactly when the header is danger.
  - The "Updated" time is the second space-separated token of `RecDateTime`,
    or `--:--`.

Modules:

- `Options` (options.dfy) is the optional value. A TypeScript `null` or
  `undefined` is `None`.
- `Text` (text.dfy) covers the three ECMAScript string operations the code
  relies on: `trim` (over the exact WhiteSpace and LineTerminator character
  set), `includes` and `split` on one character. Trim has a specification
  and a uniqueness lemma, `includes` an if-and-only-if specification, and
  split a join inverse in both directions.
- `Status` (status.dfy) models `utils.ts`.
- `AlarmGrid` (alarm_grid.dfy) models the data logic of
  `components/AlarmStationGrid.tsx`, without the markup.
- `Samples` (samples.dfy) holds the four sample stations the dashboard ships
  with, together with the tiers their comments say they produce.

Two consequences of the code worth spelling out:

- A door value with no fault keyword other than 開啟 and 關閉 (say "jammed")
  is secondary, never danger (utils.ts:18-22); see
  `Status.SecondaryIffNoRule` and `Samples.UnknownSample`.
- The record fields are declared `string` in `types.ts`, but the classifier
  accepts null or undefined and the card reads `RecDateTime` with `?.`, so
  the model lets every reading and the record time be absent.

## Model

| member | source | states |
|---|---|---|
| Text.TrimStartSpec | utils.ts:8 | Trimming the front keeps a suffix of the input. Only whitespace is removed, and the result does not start with whitespace. |
| Text.TrimEndSpec | utils.ts:8 | Trimming the back keeps a prefix of the input. Only whitespace is removed, and the result does not end with whitespace. |
| Text.TrimSpec | utils.ts:8 | The trimmed value has no whitespace at either end, and it sits inside the input with only whitespace around it. |
| Text.TrimUnique | utils.ts:8 | Any whitespace-free core that sits in the input with only whitespace around it equals the trimmed value. |
| Text.TrimIdempotent | utils.ts:8 | Trimming an already trimmed value changes nothing. |
| Text.TrimEmptyIffAllWhitespace | utils.ts:8 | A value trims to "" exactly when every character is whitespace. |
| Text.ContainsSpec | utils.ts:12 | The substring test is true exactly when the keyword occurs at some position of the value. |
| Text.Split | components/AlarmStationGrid.tsx:52 | Splitting on a character gives at least one piece, and no piece contains the separator. |
| Text.JoinSplit | components/AlarmStationGrid.tsx:52 | Joining the pieces back with the separator rebuilds the input, so splitting loses nothing. |
| Text.SplitJoin | components/AlarmStationGrid.tsx:52 | Splitting a join of separator-free pieces gives back exactly those pieces, empty ones included. |
| Status.GetStatusColor | utils.ts:7-38 | Safety policy: a fault keyword always gives danger. Success needs an exact known-good literal of the kind. Warning needs a door reading exactly 開啟. A non-door sensor is secondary only when its value is empty. |
| Status.LiteralsAreFaultFree | utils.ts:12-28 | None of the literals that lead to success or warning contains a fault keyword, so rule 2 never hides them. |
| Status.SuccessIffKnownGood | utils.ts:18-28 | Success holds exactly when the trimmed value is 關閉 for a door, or one of 正常, 通訊正常 and 關閉 for any other sensor. |
| Status.WarningIffDoorOpen | utils.ts:16-22 | Warning holds exactly when the kind is door and the trimmed value is 開啟. |
| Status.DangerIffFaultOrUnknown | utils.ts:10-34 | Danger holds exactly when the value has a fault keyword (either kind), or when a non-door value is non-empty and not known-good. A door is never danger without a fault keyword. |
| Status.SecondaryIffNoRule | utils.ts:16-37 | Secondary holds exactly for a fault-free value that has no rule: a door value other than 開啟 and 關閉, or an empty value for other sensors. |
| Status.BlankIsSecondary | utils.ts:8-37 | Absent, empty and whitespace-only values are secondary for both kinds. |
| Status.TrimInvariant | utils.ts:8 | The tier of a value equals the tier of its trimmed form, so surrounding whitespace never changes it. |
| Status.TextClassInjective | utils.ts:40-48 | The text-class map is total over the four tiers and gives different tiers different class strings. |
| Status.DotClassInjective | utils.ts:50-57 | The dot-class map is total over the four tiers and gives different tiers different class strings. |
| AlarmGrid.BadgeUsesKind | components/AlarmStationGrid.tsx:61-124 | Each badge classifies its own field. The door badge uses the door rules, and the other five badges use the normal rules. |
| AlarmGrid.StatusesMatchBadges | components/AlarmStationGrid.tsx:24-31 | Entry i of the roll-up list equals the badge of the i-th sensor in roll-up order: same field, same kind. |
| AlarmGrid.StatusesAreBadges | components/AlarmStationGrid.tsx:24-31 | The roll-up list covers every sensor, so a tier occurs in it exactly when some badge shows that tier. |
| AlarmGrid.HeaderTierIsWorst | components/AlarmStationGrid.tsx:33-40 | The header tier is the worst rank among the statuses, where danger is above warning and success ties with secondary at the bottom. |
| AlarmGrid.HeaderTierOnlyOnOccurrence | components/AlarmStationGrid.tsx:33-40 | Two status lists with the same tiers present give the same header, whatever their order or repetition. |
| AlarmGrid.StationHeader | components/AlarmStationGrid.tsx:24-40 | The header is danger exactly when some badge is danger. It is warning exactly when no badge is danger and some badge warns. It is neutral exactly when every badge is success or secondary. |
| AlarmGrid.CardOf | components/AlarmStationGrid.tsx:22-54 | The card is keyed by the station id. It has the header tier above and that tier's header class. The ring class is `ring-2 ring-rose-500/20` exactly when the header is danger, and empty otherwise. The shown time is the token described below. |
| AlarmGrid.Grid | components/AlarmStationGrid.tsx:22-54 | There is one card per station, in input order: card i is the card of station i, so everything stated for `CardOf` holds for it. Each card is keyed by its station id and has a ring exactly when one of that station's badges is danger. |
| AlarmGrid.UpdatedTime | components/AlarmStationGrid.tsx:52 | The shown time is the placeholder `--:--`, or a non-empty space-free token. It is the placeholder when the record time is absent. |
| AlarmGrid.UpdatedTimeOfTokens | components/AlarmStationGrid.tsx:52 | Take a record time made of space-free tokens joined by single spaces. The shown time is the second token when it exists and is non-empty, and the placeholder otherwise. |
| AlarmGrid.NoSpaceNoClock | components/AlarmStationGrid.tsx:52 | A record time without a space shows the placeholder. |
| AlarmGrid.UpdatedTimeShowsClock | components/AlarmStationGrid.tsx:52 | "date clock" shows the clock, or the placeholder when the clock is empty. |
| AlarmGrid.UpdatedTimeIgnoresRest | components/AlarmStationGrid.tsx:52 | Text after a further space does not change the shown clock. |
| Samples.FaultSamples | services/dataService.ts:37-63 | 異常, 故障 and 斷線 are danger for both kinds. |
| Samples.UnknownSample | services/dataService.ts:60 | 電壓過低 (voltage low) is danger for a normal sensor and secondary for a door. |
| Samples.OpenedSample | services/dataService.ts:39 | 開啟 is warning for a door and danger for any other sensor. |
| Samples.ClosedSample | services/dataService.ts:28 | 關閉 is success for both kinds. |
| Samples.HealthySamples | services/dataService.ts:25-30 | 正常 and 通訊正常 are success for a normal sensor. |
| Samples.PaddedSample | utils.ts:8 | 正常 with a leading space and a trailing newline is still success. |
| Samples.DamCard | services/dataService.ts:21-31 | Station S001 has a neutral header and no ring. |
| Samples.WestGateBadges | services/dataService.ts:32-42 | At station S002, mains power is danger and the door is warning. |
| Samples.WestGateCard | services/dataService.ts:32-42 | Station S002 has a danger header with the ring, although its door only warns. |
| Samples.EastGateCard | services/dataService.ts:43-53 | Station S003 has a danger header because it is disconnected. |
| Samples.SupplyBadges | services/dataService.ts:54-64 | At station S004, the battery (unknown value) and the speaker (fault) are both danger. |
| Samples.SupplyCard | services/dataService.ts:54-64 | Station S004 has a danger header. |
| Samples.DamClock | services/dataService.ts:24 | The record time "2023-10-27 10:00:00" shows "10:00:00". |

## Left out

- `services/dataService.ts` returns a fixed data set after an 800 ms timer (services/dataService.ts:10); the timer and the reservoir and rainfall readings are not modelled, and the four alarm stations serve only as expected outcomes in `Samples`.
- `App.tsx` is not modelled: its React state, asynchronous loading and 60-second polling timer are UI wiring and clocks.
- `components/ReservoirPanel.tsx` and `components/RainfallChart.tsx` are not modelled: they do floating-point formatting and chart rendering.
- `components/StatusBadge.tsx` is not modelled beyond the two class maps it calls. Its only other logic is the `value || "N/A"` display fallback.
- The markup, the Tailwind class composition around the header class and the ring class, and the icon calls are left out.
- The `default` branches of the two class-map switches are left out. The tier type is closed, so they cannot be reached.
- Status.TextClassInjective, Status.DotClassInjective: these compare whole class strings. The model does not treat a class string as a set of CSS classes.
- JavaScript strings are UTF-16, while Dafny characters are Unicode scalar values. Every character of the keywords and literals is a BMP code point, and so is every ECMAScript whitespace character, so trimming, substring tests and exact comparisons give the same answers. A string holding a lone UTF-16 surrogate cannot be represented in the model at all.
- Locale-aware case folding is not modelled, because the code compares literals exactly.
- AlarmGrid.CardOf: the card carries no list of badge tiers. The badges are given per sensor by `AlarmGrid.Badge`, and `AlarmGrid.BadgeUsesKind` states what each one shows.
