/**
 * The administrator's analytics dashboard: the colour of a compliance score,
 * the trend colour and icon of a key metric, the activity level of a
 * department, and the most-accessed data types with their percentages.
 */
module Analytics {

  /** getScoreColor */
  function ScoreColor(score: real): string {
    if score >= 95.0 then "text-green-600"
    else if score >= 85.0 then "text-yellow-600"
    else "text-red-600"
  }

  /** The rank of a score colour: red 0, yellow 1, green 2. */
  function ScoreRank(color: string): int {
    if color == "text-green-600" then 2
    else if color == "text-yellow-600" then 1
    else 0
  }

  /** Green from 95 up, yellow from 85 below 95, red below 85. */
  lemma ScoreColorSpec(score: real)
    ensures ScoreColor(score) == "text-green-600" <==> score >= 95.0
    ensures ScoreColor(score) == "text-yellow-600" <==> 85.0 <= score < 95.0
    ensures ScoreColor(score) == "text-red-600" <==> score < 85.0
  {
  }

  /** A higher score never gets a worse colour. */
  lemma ScoreColorMonotone(a: real, b: real)
    requires a <= b
    ensures ScoreRank(ScoreColor(a)) <= ScoreRank(ScoreColor(b))
  {
  }

  datatype TrendIcon = TrendingUp | TrendingDown

  /** getTrendIcon */
  function TrendIconOf(trend: string): TrendIcon {
    if trend == "up" then TrendingUp else TrendingDown
  }

  /** getTrendColor */
  function TrendColor(trend: string): string {
    if trend == "up" then "text-green-600" else "text-red-600"
  }

  /** Only "up" is shown green with the rising icon; every other value,
      including an unknown one, is shown red with the falling icon. */
  lemma TrendSpec(trend: string)
    ensures TrendColor(trend) == "text-green-600" <==> trend == "up"
    ensures TrendColor(trend) == "text-red-600" <==> trend != "up"
    ensures TrendIconOf(trend) == TrendingUp <==> TrendColor(trend) == "text-green-600"
  {
  }

  datatype ActivityLevel = High | Medium | Low

  /** A department's badge: High above 2500 accesses, Medium above 2000, Low otherwise. */
  function ActivityLevelOf(accesses: int): ActivityLevel {
    if accesses > 2500 then High else if accesses > 2000 then Medium else Low
  }

  function LevelRank(l: ActivityLevel): int {
    match l
    case High => 2
    case Medium => 1
    case Low => 0
  }

  lemma ActivityLevelSpec(accesses: int)
    ensures ActivityLevelOf(accesses) == High <==> accesses > 2500
    ensures ActivityLevelOf(accesses) == Medium <==> 2000 < accesses <= 2500
    ensures ActivityLevelOf(accesses) == Low <==> accesses <= 2000
  {
  }

  /** More accesses never give a lower level. */
  lemma ActivityLevelMonotone(a: int, b: int)
    requires a <= b
    ensures LevelRank(ActivityLevelOf(a)) <= LevelRank(ActivityLevelOf(b))
  {
  }

  datatype AccessedData = AccessedData(kind: string, accesses: nat, percentage: nat)

  const TopAccessedData: seq<AccessedData> := [
    AccessedData("Medical History", 2341, 34),
    AccessedData("Lab Results", 1892, 27),
    AccessedData("Prescriptions", 1456, 21),
    AccessedData("Vital Signs", 823, 12),
    AccessedData("Imaging", 412, 6)
  ]

  function TotalPercentage(rows: seq<AccessedData>): nat
    decreases |rows|
  {
    if |rows| == 0 then 0 else rows[0].percentage + TotalPercentage(rows[1..])
  }

  function TotalAccesses(rows: seq<AccessedData>): nat
    decreases |rows|
  {
    if |rows| == 0 then 0 else rows[0].accesses + TotalAccesses(rows[1..])
  }

  /** A percentage is the row's share of all accesses, rounded to the nearest whole percent. */
  predicate RoundedShare(row: AccessedData, total: nat) {
    var diff: int := 100 * row.accesses - row.percentage * total;
    -(total as int) <= 2 * diff <= total
  }

  /** The bars add up to the whole, and each is its row's rounded share of the accesses. */
  lemma TopAccessedDataSpec()
    ensures TotalPercentage(TopAccessedData) == 100
    ensures TotalAccesses(TopAccessedData) == 6924
    ensures forall i :: 0 <= i < |TopAccessedData| ==> RoundedShare(TopAccessedData[i], 6924)
  {
    var t := TopAccessedData;
    assert t[1..][1..][1..][1..][1..] == [];
  }

  datatype Department = Department(name: string, users: nat, accesses: nat)

  const DepartmentUsage: seq<Department> := [
    Department("Emergency", 89, 3245),
    Department("Cardiology", 45, 2891),
    Department("Primary Care", 123, 2456),
    Department("Radiology", 34, 1823),
    Department("Surgery", 67, 1567)
  ]

  /** Emergency and Cardiology are High, Primary Care is Medium, Radiology and Surgery are Low. */
  lemma DepartmentLevels()
    ensures [ActivityLevelOf(DepartmentUsage[0].accesses), ActivityLevelOf(DepartmentUsage[1].accesses),
             ActivityLevelOf(DepartmentUsage[2].accesses), ActivityLevelOf(DepartmentUsage[3].accesses),
             ActivityLevelOf(DepartmentUsage[4].accesses)] == [High, High, Medium, Low, Low]
  {
  }
}
