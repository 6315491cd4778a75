# BodySense AI health dashboard — a verified Dafny model

This project models the logic of the BodySense AI health dashboard. The
React front end shows synthetic vital signs, an hourly trend, AI insight
cards, a set of detail pages and an emergency care finder. A small Flask
service mirrors the data generators and validates posted readings.

The model covers:

- **Generators.** The snapshot generator, the hourly trend generator
  (band shaping, jitter, clamps, hour labels) and the insight catalog of
  `src/lib/healthData.ts`. The wall clock and `Math.random()` are
  parameters: an hour of day and draws in [0, 1).
- **Dashboard.** The overall health status, the card alerts and arrows,
  the progress bars and the timeframe chart. `DashboardState` holds the
  dashboard's state. Its `Tick` method is the ten-second refresh that
  raises alerts and latches the emergency finder on.
- **Metric card.** Colour, alert ring, alert dot, trend icon, device
  detection and padding.
- **Detail pages.** The classifiers and constant data of the heart-rate,
  blood-oxygen, activity, stress and sleep pages.
- **Profile page.** The edit, save and cancel state machine and the avatar
  initials.
- **Notifications page, insights card and watch face.** The watch face is
  a class with its two timer actions.
- **Emergency care finder.** Its case-insensitive search.
- **Flask service.** Its snapshot generator, the index-labelled trend
  loop, the alert catalog and the required-field validator.

The modules and what they hold:

- `Numeric`: Math.round, clamp, randint and the sum.
- `Text`: number printing and parsing, hour labels, ASCII lower-casing and
  substring search.
- `Options`, `Badge`, `Chart`: shared vocabulary.
- One module per component or page.
- `Backend`: the Flask service.

The generators and page constants are functions. Components whose state
the source updates are classes whose methods state the new state:
`DashboardState`, `ProfilePage`, `NotificationsPage`, `SmartWatchView`
and `DeviceWatcher`. The three loops of the source are methods with loop
invariants, proved against specification functions:

- the trend loop, `HealthData.GenerateTrendData` against `TrendPoint`;
- the Flask trend loop, `Backend.GetHealthTrends` against `TrendEntry`;
- the Flask required-field loop, `Backend.SaveHealthMetrics` against
  `Validate`.

## Model

| member | source | states |
|---|---|---|
| Numeric.Round | src/lib/healthData.ts:29-35 | Math.round gives the integer within half a unit of x (halves go up) |
| Numeric.RoundWithin | src/lib/healthData.ts:29-35 | a value between two integers rounds to an integer between them, which is what every generator bound rests on |
| Numeric.Clamp | src/lib/healthData.ts:67-70 | Math.max(lo, Math.min(hi, x)) lies in [lo, hi], is x inside the range and the nearer end outside |
| Numeric.ClampMonotone | src/lib/healthData.ts:67-70 | clamping never reorders two values |
| Numeric.RandInt | api/app.py:14-20 | random.randint(a, b) fed by a draw in [0, 1) lies in [a, b] |
| Text.NatToString | src/components/Dashboard.tsx:25 | the decimal text of a number is all digits with no leading zero |
| Text.ParseNatToString | src/components/Dashboard.tsx:25 | printing then reading back a number gives the number |
| Text.NatToStringInjective | src/components/Dashboard.tsx:25 | distinct numbers print differently |
| Text.IntToString | src/components/Dashboard.tsx:44 | a negative number prints as "-" followed by its magnitude; others as their digits |
| Text.ZeroPad2 | src/lib/healthData.ts:66 | padStart(2, '0') gives all-digit text of length two below 100 that reads back as the number |
| Text.HourLabel | src/lib/healthData.ts:66 | the "HH:00" label ends in ":00" and has five characters below 100 |
| Text.HourLabelRoundTrip | src/lib/healthData.ts:66 | the hour can be read back from its label |
| Text.Lower | src/components/EmergencyDoctorFinder.tsx:90-92 | toLowerCase maps each character and keeps the length |
| Text.LowerIdempotent | src/components/EmergencyDoctorFinder.tsx:90-92 | lower-casing twice is lower-casing once |
| Text.ContainsEmpty | src/components/EmergencyDoctorFinder.tsx:65 | every text contains the empty term |
| Text.ContainsTransitive | src/components/EmergencyDoctorFinder.tsx:89-93 | a substring of a substring is a substring |
| Text.ContainsLower | src/components/EmergencyDoctorFinder.tsx:90-92 | containment survives lower-casing both sides |
| Options.Option.GetOr | src/components/HealthMetricCard.tsx:25 | a present value wins over the default |
| HealthData.GenerateHealthMetrics | src/lib/healthData.ts:21-37 | heart rate in [55,65] before 06:00 or after 22:59 and in [70,90] otherwise; SpO2 [96,100], steps [1000,9000], calories [300,1500], stress [20,80], water [500,2500]; sleep in [6,9] with one decimal |
| HealthData.SampleHour | src/lib/healthData.ts:44-45 | the sample taken `ago` hours before now falls on hour (now − ago) mod 24 |
| HealthData.SampleHourStep | src/lib/healthData.ts:43-45 | consecutive samples are one clock hour apart, wrapping at midnight |
| HealthData.HourBand | src/lib/healthData.ts:51-63 | the first-match band chain puts each hour in exactly the window of its band |
| HealthData.ShapedHeartRate | src/lib/healthData.ts:48-63 | base 70 shaped to 85 / 80 / 90 / 55 / 70 by band |
| HealthData.ShapedStress | src/lib/healthData.ts:49-63 | base 30 shaped to 50 / 45 / 55 / 20 / 30 by band |
| HealthData.Jitter | src/lib/healthData.ts:67-70 | (Math.random() − 0.5) · spread lies in [−spread/2, spread/2) |
| HealthData.ShapedPoint | src/lib/healthData.ts:65-71 | the pushed point carries the hour's label, non-negative steps, SpO2 in [96,100), heart rate and stress within the clamps of the shaped value ±10 and ±15 |
| HealthData.TrendPoint | src/lib/healthData.ts:46-71 | the point for an hour is labelled with that hour, heart rate in [50,120] and stress in [10,80] |
| HealthData.TrendPointRanges | src/lib/healthData.ts:65-71 | heart rate in [50,120], SpO2 in [96,100), stress in [10,80]; steps in [200,700] for hours 7–21 and in [0,500] otherwise |
| HealthData.TrendPointJitter | src/lib/healthData.ts:67-70 | heart rate and stress lie between the clamps of the shaped value ±10 and ±15 |
| HealthData.ShapeForHour | src/lib/healthData.ts:48-63 | the if-chain of the loop body yields the band-shaped heart rate and stress |
| HealthData.GenerateTrendData | src/lib/healthData.ts:39-75 | hours+1 points oldest first (none for negative hours); point k is the point for the hour hours−k before now; all in range; the last label is the current hour |
| HealthData.GenerateAIInsights | src/lib/healthData.ts:77-114 | four insights with ids "1".."4", none of kind info, exactly one (the third) a high-priority alert |
| MetricCard.Severity | src/components/HealthMetricCard.tsx:62-71 | orders normal < warning < critical |
| MetricCard.EffectiveAlert | src/components/HealthMetricCard.tsx:25 | a missing alert prop means normal |
| MetricCard.ColorClasses | src/components/HealthMetricCard.tsx:45-60 | one palette per colour key, primary for any other key |
| MetricCard.AlertClasses | src/components/HealthMetricCard.tsx:62-71 | no ring when normal; distinct rings for warning and critical |
| MetricCard.AlertDot | src/components/HealthMetricCard.tsx:104-105 | the dot appears iff the alert is not normal; warning colour for warning, destructive otherwise |
| MetricCard.AlertDotMatchesRing | src/components/HealthMetricCard.tsx:62-105 | the dot and the ring agree: no dot iff no ring, destructive dot iff critical ring |
| MetricCard.TrendIcon | src/components/HealthMetricCard.tsx:73-83 | ↗ for up, ↘ for down, → for stable, no icon without a trend |
| MetricCard.TrendRowVisible | src/components/HealthMetricCard.tsx:96 | a visible trend row has an icon to show; an empty trend text hides the row |
| MetricCard.TrendRowHasIcon | src/components/HealthMetricCard.tsx:96 | a visible trend row always has an icon |
| MetricCard.IsMobile | src/components/HealthMetricCard.tsx:36 | mobile iff narrower than 768, which every smartwatch width is |
| MetricCard.IsSmartwatch | src/components/HealthMetricCard.tsx:37 | smartwatch iff both sides are at most 320, and a smartwatch window is mobile |
| MetricCard.SmartwatchIsMobile | src/components/HealthMetricCard.tsx:36-37 | a smartwatch window is also a mobile window |
| MetricCard.CardPadding | src/components/HealthMetricCard.tsx:86 | smartwatch padding wins over mobile, mobile over desktop |
| MetricCard.PaddingForWindow | src/components/HealthMetricCard.tsx:36-86 | the smallest padding iff smartwatch; desktop padding iff width ≥ 768 |
| MetricCard.DeviceWatcher.constructor | src/components/HealthMetricCard.tsx:28-29 | both flags start false |
| MetricCard.DeviceWatcher.CheckDeviceType | src/components/HealthMetricCard.tsx:32-38 | isMobile iff width < 768; isSmartwatch iff width ≤ 320 and height ≤ 320 |
| HeartRate.ZoneAt | src/pages/HeartRate.tsx:116-122 | the n-th zone of the table's order has position n on the scale |
| HeartRate.GetHeartRateZone | src/pages/HeartRate.tsx:22-28 | Resting < 60 ≤ Normal < 100 ≤ Elevated < 120 ≤ High < 150 ≤ Maximum, each zone with its own colour |
| HeartRate.ZoneMonotone | src/pages/HeartRate.tsx:22-28 | a faster heart never falls into a slower zone |
| HeartRate.BannerBoundary | src/pages/HeartRate.tsx:45 | 100 BPM is Elevated with no banner; any banner reading is at least Elevated |
| HeartRate.HighHeartRateBanner | src/pages/HeartRate.tsx:45 | the banner shows iff the rate exceeds 100, so only at Elevated or above, and never below Elevated |
| HeartRate.CardAlert | src/pages/HeartRate.tsx:63 | critical above 100, warning above 85, otherwise normal |
| HeartRate.CardTrend | src/pages/HeartRate.tsx:61 | up above 80, down below 65, stable between |
| HeartRate.CardTrendValue | src/pages/HeartRate.tsx:62 | the trend text is the zone's name as the zone table prints it, followed by " Zone" |
| HeartRate.CardAgreesWithBanner | src/pages/HeartRate.tsx:45-63 | the card is critical iff the banner shows; a non-normal card always points up |
| HeartRate.CardAlertMonotone | src/pages/HeartRate.tsx:63 | the alert never decreases as the heart rate rises |
| HeartRate.ZoneTableAgrees | src/pages/HeartRate.tsx:116-122 | the table lists the five zones slowest first with the classifier's names and colours |
| HeartRate.ZoneTableBoundaries | src/pages/HeartRate.tsx:117-121 | the printed ranges match the classifier except at 100 (printed under Normal and Elevated, classified Elevated), 120 (printed under Elevated and High, classified High) and 150 (printed under High only, classified Maximum) |
| BloodOxygen.GetOxygenStatus | src/pages/BloodOxygen.tsx:21-26 | Excellent ≥ 98, Good ≥ 95, Low ≥ 90, otherwise Critical |
| BloodOxygen.StatusMonotone | src/pages/BloodOxygen.tsx:21-26 | a higher level never gets a worse status |
| BloodOxygen.BannerMatchesStatus | src/pages/BloodOxygen.tsx:43 | the low-oxygen banner shows iff the status is Low or Critical |
| BloodOxygen.LowOxygenBanner | src/pages/BloodOxygen.tsx:43 | the banner shows iff the classifier ranks the level Low or Critical |
| BloodOxygen.CardAlert | src/pages/BloodOxygen.tsx:60 | critical below 95, warning below 97, otherwise normal |
| BloodOxygen.CardTrend | src/pages/BloodOxygen.tsx:58 | stable iff level ≥ 98, else down |
| BloodOxygen.CardAgreesWithStatus | src/pages/BloodOxygen.tsx:43-60 | critical card iff banner; stable arrow iff Excellent |
| BloodOxygen.CardAlertMonotone | src/pages/BloodOxygen.tsx:60 | the alert never decreases as the level falls |
| BloodOxygen.ReferenceRangesAgree | src/pages/BloodOxygen.tsx:108-135 | for integer levels up to 100 the printed ranges 98-100, 95-97, 90-94 and <90 partition exactly as the classifier |
| Activity.StepProgress | src/pages/Activity.tsx:19-20 | steps/10000·100, uncapped: at least 100 iff the goal is reached |
| Activity.CalorieProgress | src/pages/Activity.tsx:21-22 | calories/2000·100, uncapped: at least 100 iff the goal is reached |
| Activity.GoalLabelRounds | src/pages/Activity.tsx:45-63 | the label shows the rounded percentage: "100% of goal" at the goal, 9950 steps already round to 100 |
| Activity.GoalLabel | src/pages/Activity.tsx:45-63 | the trend text ends in "% of goal" and its number reads back as Math.round of the progress |
| Activity.DistanceKm | src/pages/Activity.tsx:76 | 0.8 m per step: 1250 steps make a kilometre |
| Activity.DistanceTenths | src/pages/Activity.tsx:76 | the shown one-decimal distance is within half a tenth of the true distance |
| Activity.DistanceStep | src/pages/Activity.tsx:76 | 1250 more steps add one km; 125 more add one shown tenth |
| Activity.DistanceMonotone | src/pages/Activity.tsx:76 | the shown distance never decreases with more steps |
| Activity.StepTrend | src/pages/Activity.tsx:44 | up iff steps > 8000, else stable |
| Activity.StepTrendProgress | src/pages/Activity.tsx:20-44 | the up arrow appears iff progress passes 80% |
| Activity.SnapshotProgressBounds | src/pages/Activity.tsx:20-22 | with generated snapshots step progress stays in [10,90] and calorie progress in [15,75] |
| Dashboard.HealthStatus | src/components/Dashboard.tsx:60-64 | critical iff HR > 100 or SpO2 < 95 or stress > 70; warning iff not critical and HR > 85 or SpO2 < 97 or stress > 50; normal otherwise |
| Dashboard.HealthStatusMonotone | src/components/Dashboard.tsx:60-64 | worse readings never give a better status |
| Dashboard.StatusLabel | src/components/Dashboard.tsx:89-91 | the header text for each status |
| Dashboard.StatusLabelsDistinct | src/components/Dashboard.tsx:89-91 | the header text tells the three statuses apart |
| Dashboard.StressCardAlert | src/components/Dashboard.tsx:172 | the stress card warns iff stress > 70 and is never critical |
| Dashboard.CardAlerts | src/components/Dashboard.tsx:107-172 | the three card alerts in page order |
| Dashboard.CardsBelowStatus | src/components/Dashboard.tsx:61-172 | no card is more alarming than the overall status; a critical card forces a critical status |
| Dashboard.StatusAboveCards | src/components/Dashboard.tsx:61-172 | the status can be worse than every card, through stress |
| Dashboard.HeartRateTrendValue | src/components/Dashboard.tsx:105-106 | the trend text follows the card's arrow |
| Dashboard.OxygenTrendValue | src/components/Dashboard.tsx:124-125 | the trend text follows the card's arrow |
| Dashboard.SleepTrend | src/components/Dashboard.tsx:160 | stable iff at least 7 hours, else down |
| Dashboard.SleepTrendValue | src/components/Dashboard.tsx:161 | the trend text follows the arrow |
| Dashboard.StressTrend | src/components/Dashboard.tsx:170 | up above 60, down below 30, stable between |
| Dashboard.StressTrendValue | src/components/Dashboard.tsx:171 | the trend text follows the arrow |
| Dashboard.StressCardConsistent | src/components/Dashboard.tsx:170-172 | a warning stress card always points up |
| Dashboard.ProgressWidth | src/components/Dashboard.tsx:149-195 | the bar width is the progress capped at 100 |
| Dashboard.ProgressWidthFull | src/components/Dashboard.tsx:149-195 | a bar is full iff its goal is reached |
| Dashboard.TickAlert | src/components/Dashboard.tsx:41-54 | high-heart-rate alert iff HR > 100; otherwise low-oxygen alert iff SpO2 < 95; at most one alert |
| Dashboard.TickAlertIsCritical | src/components/Dashboard.tsx:41-61 | every alert the tick raises comes with a critical status |
| Dashboard.ToastTitle | src/components/Dashboard.tsx:42-50 | one title per alert kind: the high-heart-rate title iff a heart-rate alert, the low-oxygen title iff an oxygen alert |
| Dashboard.ToastDescription | src/components/Dashboard.tsx:42-50 | the description starts with the alert's sentence and the reading that raised it can be read back from the text |
| Dashboard.SnapshotRaisesNoAlert | src/components/Dashboard.tsx:36-54 | generated snapshots never trigger an alert |
| Dashboard.SnapshotCanBeCritical | src/components/Dashboard.tsx:36-61 | a generated snapshot can still make the status critical, through stress |
| Dashboard.DayLabel | src/components/Dashboard.tsx:25-27 | point i is labelled "Day " followed by i+1 |
| Dashboard.DayLabelsDistinct | src/components/Dashboard.tsx:25-27 | distinct points get distinct day labels |
| Dashboard.DaySeries | src/components/Dashboard.tsx:25-27 | one point per trend entry, in order, labelled by day, valued by heart rate |
| Dashboard.HourSeries | src/components/Dashboard.tsx:29 | one point per trend entry, in order, keeping its hour label |
| Dashboard.DashboardState.constructor | src/components/Dashboard.tsx:14-17 | a generated snapshot, a 25-point trend, the daily tab, the finder off, no toasts |
| Dashboard.DashboardState.Tick | src/components/Dashboard.tsx:35-55 | new snapshot and trend; the tick's alert appended; the finder latched on exactly when HR > 100, never turned off |
| Dashboard.DashboardState.SetTimeframe | src/components/Dashboard.tsx:77 | only the tab changes |
| Dashboard.DashboardState.GetTimeframeData | src/components/Dashboard.tsx:21-31 | weekly: 8 points "Day 1".."Day 8"; monthly: 31 points "Day 1".."Day 31", in order; otherwise the current trend's hour labels |
| StressLevels.StressColor | src/pages/StressLevels.tsx:49-53 | green ≤ 30, yellow ≤ 60, red above |
| StressLevels.StressLabel | src/pages/StressLevels.tsx:55-59 | Low ≤ 30, Moderate ≤ 60, High above |
| StressLevels.StressVariant | src/pages/StressLevels.tsx:61-65 | default ≤ 30, secondary ≤ 60, destructive above |
| StressLevels.StressClassifiersAgree | src/pages/StressLevels.tsx:49-65 | label, colour and variant always name the same band |
| StressLevels.HighDays | src/pages/StressLevels.tsx:30 | the count of High-labelled days is at most the number of days; zero iff no day is High, all iff every day is |
| StressLevels.WeeklyStatsMatchData | src/pages/StressLevels.tsx:10-33 | two days are High and 51 is round(355/7), as the stored summary says |
| StressLevels.CurrentBadgeIgnoresStatus | src/pages/StressLevels.tsx:93-94 | level 42 shows "Moderate" although the stored status is "Low" |
| StressLevels.ViewFactor | src/pages/StressLevels.tsx:174-183 | impact > 0 is a red rising "Stressor" with a destructive badge; otherwise a green "Reliever"; the shown number is the magnitude |
| StressLevels.FactorRows | src/pages/StressLevels.tsx:174-183 | one row per factor in order |
| StressLevels.TodaysFactors | src/pages/StressLevels.tsx:174-183 | meetings and commute are stressors; exercise (25) and meditation (40) are relievers |
| StressLevels.StressChart | src/pages/StressLevels.tsx:152 | one point per day in order |
| SleepPatterns.QualityColor | src/pages/SleepPatterns.tsx:57-61 | green ≥ 85, yellow ≥ 70, red below |
| SleepPatterns.QualityLabel | src/pages/SleepPatterns.tsx:63-68 | Excellent ≥ 85, Good ≥ 70, Fair ≥ 50, Poor below |
| SleepPatterns.QualityLabelAndColorAgree | src/pages/SleepPatterns.tsx:57-68 | Excellent iff green, Good iff yellow, red iff Fair or Poor |
| SleepPatterns.QualityColorMonotone | src/pages/SleepPatterns.tsx:57-61 | a better score never gets a worse colour |
| SleepPatterns.InsightStyle | src/pages/SleepPatterns.tsx:188-191 | positive green, warning yellow, anything else blue |
| SleepPatterns.InsightStyles | src/pages/SleepPatterns.tsx:188-191 | the three insights get green, yellow and the blue default |
| SleepPatterns.AvgQualityMatchesData | src/pages/SleepPatterns.tsx:9-32 | 82 is round(577/7) and is labelled Good |
| SleepPatterns.AvgSleepDisagreesWithData | src/pages/SleepPatterns.tsx:9-31 | the nights total 52.3 h, a mean of 448 min, not the shown 7h 24m |
| SleepPatterns.SleepChart | src/pages/SleepPatterns.tsx:171 | one point per night in order |
| Profile.WithField | src/pages/Profile.tsx:102 | an onChange replaces one field and keeps the other five |
| Profile.ProfileExtensional | src/pages/Profile.tsx:15-22 | a profile is its six fields |
| Profile.WithFieldSame | src/pages/Profile.tsx:102 | typing a field's own value back changes nothing |
| Profile.ProfilePage.Shown | src/pages/Profile.tsx:98-175 | the draft's input while editing; otherwise the saved value, the date of birth through the locale's date format; in both modes produced from the draft's text |
| Profile.ProfilePage.constructor | src/pages/Profile.tsx:14-24 | not editing, profile and draft both the initial profile |
| Profile.ProfilePage.StartEditing | src/pages/Profile.tsx:57 | editing starts; profile and draft untouched |
| Profile.ProfilePage.Save | src/pages/Profile.tsx:26-33 | the draft becomes the profile, editing ends |
| Profile.ProfilePage.Cancel | src/pages/Profile.tsx:35-38 | the draft is reset to the profile, editing ends, profile untouched |
| Profile.ProfilePage.EditField | src/pages/Profile.tsx:98-190 | only while editing; exactly one draft field changes |
| Profile.Split | src/pages/Profile.tsx:82 | split(' ') gives at least one piece, none containing a space |
| Profile.JoinSplit | src/pages/Profile.tsx:82 | joining the pieces with spaces gives the name back |
| Profile.FirstChars | src/pages/Profile.tsx:82 | one character at most per piece |
| Profile.Initials | src/pages/Profile.tsx:82 | the avatar initials are exactly the characters that start a word of the name |
| Profile.WordStarts | src/pages/Profile.tsx:82 | the reference definition of initials contains no space |
| Profile.FirstCharsSplit | src/pages/Profile.tsx:82 | the initials are exactly the characters that start a word |
| Profile.InitialsShape | src/pages/Profile.tsx:82 | the initials are the word starts, contain no spaces and are no longer than the name |
| Profile.WordStartsInsideWord | src/pages/Profile.tsx:82 | the inside of a word adds no initial |
| Profile.WordStartsAppend | src/pages/Profile.tsx:82 | word starts of a concatenation continue from the first part |
| Profile.TwoWordInitials | src/pages/Profile.tsx:82 | "First Last" gives the two first letters |
| Profile.InitialUserInitials | src/pages/Profile.tsx:82 | the stored user's avatar reads "SJ" |
| DoctorFinder.AvailabilityColor | src/components/EmergencyDoctorFinder.tsx:67-76 | available green, busy yellow, emergency-only red |
| DoctorFinder.AvailabilityText | src/components/EmergencyDoctorFinder.tsx:78-87 | "Available Now", "Busy", "Emergency Only" |
| DoctorFinder.AvailabilityBadgesDistinct | src/components/EmergencyDoctorFinder.tsx:67-87 | distinct availabilities get distinct texts and colours |
| DoctorFinder.Matches | src/components/EmergencyDoctorFinder.tsx:89-93 | the empty term matches every doctor, and a term occurring in the name, specialty or hospital matches whatever its case |
| DoctorFinder.FilterDoctors | src/components/EmergencyDoctorFinder.tsx:89-93 | the result is no longer than the list and holds only matching doctors of it |
| DoctorFinder.FilterKeepsMatches | src/components/EmergencyDoctorFinder.tsx:89-93 | a listed doctor is kept iff the lower-cased term occurs in its lower-cased name, specialty or hospital |
| DoctorFinder.FilterIsSubsequence | src/components/EmergencyDoctorFinder.tsx:89-134 | the result keeps directory order |
| DoctorFinder.EmptyTermKeepsAll | src/components/EmergencyDoctorFinder.tsx:65-93 | the empty term keeps every doctor |
| DoctorFinder.FilterIgnoresCase | src/components/EmergencyDoctorFinder.tsx:90-92 | terms differing only in letter case find the same doctors |
| DoctorFinder.FilterRefines | src/components/EmergencyDoctorFinder.tsx:89-93 | a longer term containing a shorter one finds a subset |
| DoctorFinder.InitialListing | src/components/EmergencyDoctorFinder.tsx:22-65 | the initial finder lists all three doctors |
| Notifications.SeverityColor | src/pages/Notifications.tsx:97-104 | critical destructive, warning secondary, any other string default |
| Notifications.ViewGeneral | src/pages/Notifications.tsx:154-169 | primary border and unread dot iff unread |
| Notifications.ViewAlert | src/pages/Notifications.tsx:215-240 | destructive border, icon background and icon iff critical; the badge is the severity's colour, destructive iff critical; the Find Emergency Care button iff action is required |
| Notifications.CriticalStylingMatchesBadge | src/pages/Notifications.tsx:215-225 | the destructive border and the destructive badge go together |
| Notifications.UnreadCount | src/pages/Notifications.tsx:154 | zero iff every notification is read |
| Notifications.OneUnreadGeneral | src/pages/Notifications.tsx:25-62 | exactly one general notification, the first, is unread |
| Notifications.AlertButtonsOnCritical | src/pages/Notifications.tsx:64-95 | only the critical alert has the button and the destructive styling |
| Notifications.NotificationsPage.constructor | src/pages/Notifications.tsx:23 | the finder starts hidden |
| Notifications.NotificationsPage.AccessEmergencyCare | src/pages/Notifications.tsx:203-208 | the banner button shows the finder |
| Notifications.NotificationsPage.FindEmergencyCare | src/pages/Notifications.tsx:232-240 | the alert button, present only on action-required alerts, shows the finder |
| AIInsights.InsightIcon | src/components/AIInsightsCard.tsx:19-30 | alert triangle, check circle, brain, info for the four types |
| AIInsights.InsightColor | src/components/AIInsightsCard.tsx:32-39 | an alert is destructive iff high priority, else warning; other types by type alone |
| AIInsights.PriorityColor | src/components/AIInsightsCard.tsx:41-50 | high destructive, medium warning, low muted |
| AIInsights.PriorityOnlyColorsAlerts | src/components/AIInsightsCard.tsx:33-38 | priority does not affect non-alert colours |
| AIInsights.AlertIconMatchesBadge | src/components/AIInsightsCard.tsx:32-50 | an alert's icon and badge share a colour iff its priority is not low |
| AIInsights.Rows | src/components/AIInsightsCard.tsx:65-84 | one row per insight in input order |
| AIInsights.CatalogRows | src/components/AIInsightsCard.tsx:65-84 | in the dashboard's catalog only insight "3" is drawn destructive |
| SmartWatch.Views | src/components/SmartWatchView.tsx:10-32 | Heart Rate, Blood O2, Steps in that order with their readings and units |
| SmartWatch.NextView | src/components/SmartWatchView.tsx:43 | the next face, wrapping after the third |
| SmartWatch.RotateIsModular | src/components/SmartWatchView.tsx:43 | after k ticks the face is (v + k) mod 3 |
| SmartWatch.RotationCycles | src/components/SmartWatchView.tsx:43 | three ticks return to the start, visiting every face |
| SmartWatch.Dots | src/components/SmartWatchView.tsx:73-80 | exactly the current dot is highlighted |
| SmartWatch.SmartWatchView.CurrentMetric | src/components/SmartWatchView.tsx:48 | the face shown is the current view's |
| SmartWatch.SmartWatchView.constructor | src/components/SmartWatchView.tsx:7-8 | a generated snapshot and the first face |
| SmartWatch.SmartWatchView.RefreshMetrics | src/components/SmartWatchView.tsx:34-39 | a new snapshot; the face is unchanged |
| SmartWatch.SmartWatchView.AdvanceView | src/components/SmartWatchView.tsx:41-46 | the next face, staying within the three; the snapshot unchanged |
| Backend.Uniform | api/app.py:18 | random.uniform(a, b) lies in [a, b] |
| Backend.RoundTenth | api/app.py:18 | round(x, 1) has one decimal and is within 0.05 of x |
| Backend.GenerateServiceMetrics | api/app.py:11-22 | HR [60,100], SpO2 [95,100], steps [1000,15000], calories [300,2500], stress [20,80], water [500,3000], sleep [6,9] with one decimal, the clock's timestamp |
| Backend.ServiceAndClientRangesDiffer | api/app.py:15-16 | unlike the front end's generator, the service can report 95% SpO2 and more than 9000 steps |
| Backend.TrendEntry | api/app.py:56-62 | entry i is labelled by its index (read back as i) with HR [60,120], SpO2 [95,100], steps [0,500], stress [20,80] |
| Backend.GetHealthTrends | api/app.py:52-63 | exactly `hours` entries (none when hours ≤ 0), entry i built from the i-th draws |
| Backend.TrendLabelsDistinct | api/app.py:57 | labels are not wrapped at 24: two entries never share one |
| Backend.ServiceAlertsAgreeWithClient | api/app.py:79-96 | two alerts, ids "1" and "2", equal to the front end's first two except for the shorter hydration message |
| Backend.StatusCode | api/app.py:161-175 | 200 for an accepted body, 400 for a missing field, 500 when the handler catches an exception |
| Backend.ErrorMessage | api/app.py:163 | the text starts with "Missing required field: " and the field reads back from the rest |
| Backend.ErrorMessageInjective | api/app.py:163 | different missing fields give different error texts |
| Backend.SupportsIn | api/app.py:158-160 | `in` raises TypeError exactly on null, a bool or a number |
| Backend.Has | api/app.py:159-160 | key membership on an object; an empty array holds nothing; a string contains the empty name and itself |
| Backend.Validate | api/app.py:154-170 | a body on which `in` is undefined (null, a bool, a number) fails with 500; otherwise accepted iff every required field is in it, echoing the body, else the first missing field in order |
| Backend.SaveHealthMetrics | api/app.py:151-175 | the loop with its early return answers as Validate with heartRate, bloodOxygen, steps, for every JSON body |
| Backend.SaveReportsFirstMissing | api/app.py:158-170 | heartRate is reported first; steps when only it lacks; extra fields are accepted |
| Backend.NonObjectBodies | api/app.py:158-175 | a JSON array listing the three names and a string mentioning them are accepted and echoed; an array without the names as strings is refused; a number or null answers 500 |

## Left out

- `src/lib/api.ts`, `src/components/Posts.tsx` and `src/pages/Auth.tsx` are not part of this model. They are network I/O and a simulated sign-in.
- Routing and layout (`src/App.tsx`, `src/components/HealthSidebar.tsx`, `src/pages/Index.tsx`) and the chart drawing in `src/components/HealthChart.tsx` are not part of this model.
- JSX markup, the rendering of toasts and CSS class text are not modelled; the toast titles and descriptions are, by `Dashboard.ToastTitle` and `Dashboard.ToastDescription`, but `Tick` records the alert rather than the toast. Only the identity of a class or badge variant is kept: the `Badge.Variant`, `Badge.Tone` and role datatypes.
- Timers are not modelled. `setInterval`, `clearInterval`, `useEffect` cleanup and resize listeners become explicit methods that the timers would call: `Tick`, `RefreshMetrics`, `AdvanceView` and `CheckDeviceType`.
- The clock and randomness are parameters. `new Date()`, `getHours()`, `Math.random()`, `random.randint` and `datetime.now()` are injected as an hour of day, draws in [0, 1) and a timestamp string. Daylight-saving gaps and repeats in the hour sequence are not modelled.
- Dashboard.DashboardState.Tick takes the new snapshot as a parameter rather than calling the generator. Any reading can then arrive, and the alert branches stay reachable. For generated snapshots, `Dashboard.SnapshotRaisesNoAlert` shows that no alert fires.
- Floating point is not modelled: numbers are exact reals. IEEE rounding and the text of `toFixed`, `toString` and `toLocaleString` are not modelled. The watch shows the step count as a number.
- Text.Lower and Text.LowerChar lower-case ASCII letters only. Unicode case folding is not modelled.
- HealthData.GenerateTrendData takes `hours` as an integer with no default. The source's parameter defaults to 24 and would accept a fractional number of hours; every caller passes 24, 7 or 30.
- Profile.ProfilePage.Shown shows the saved date of birth as `LocaleDate` of the stored text, not as the text `new Date(...).toLocaleDateString()` produces. That text depends on the locale and the time zone: a date-only string is read as UTC midnight, so west of UTC the page shows the previous day. This is not modelled.
- Profile.Initials works on Dafny characters. The source's `n[0]` takes one UTF-16 code unit, so a name starting with a character outside the Basic Multilingual Plane would show half a surrogate pair; this is not modelled.
- Backend.RoundTenth rounds halves up, as Math.round does. Python's round-half-to-even on binary floats is not modelled.
- Numeric.RandInt: `random.randint` is modelled as a + floor(r·(b − a + 1)) of one uniform draw. This is a model of its distribution, not of CPython's bit-level algorithm.
- The Flask plumbing is not modelled: the app object, CORS, `jsonify`, query parsing of `hours` (the default of 24 is `Backend.DefaultHours`), `get_json` refusing a request that is not JSON, the text of the `TypeError` message answered with 500 (the model only says that 500 is answered), the generic exception handlers answering 500, the root route and the startup block.
- `get_emergency_doctors` in `api/app.py` is a constant list read from no state. It is not modelled; the front end's doctor directory is.
- The constant side lists of the pages are not modelled: connected devices on the profile page, relaxation techniques, emergency features and the heart-rate and activity charts. They carry no logic.
- The missing `useState`/`useEffect` imports in `src/components/HealthMetricCard.tsx` are a build matter. The model treats the component as if it ran as written.
