/**
  The weather-code classifier: a total map from a WMO weather code, as the
  forecast API reports it, to one of eleven fixed labels.
 */
module Classifier {

  const Unknown: string := "Unknown"

  /** The eleven labels the classifier can produce. */
  const Labels: set<string> := {
    "Clear sky", "Partly cloudy", "Overcast", "Foggy", "Drizzle", "Rain",
    "Snow", "Rain showers", "Snow showers", "Thunderstorm", Unknown
  }

  /** The codes that have a label of their own. */
  const KnownCodes: set<int> := {
    0, 1, 2, 3, 45, 48, 51, 53, 55, 61, 63, 65, 71, 73, 75,
    80, 81, 82, 85, 86, 95, 96, 99
  }

  /** A group of codes sharing one label. */
  datatype Group = Group(codes: set<int>, condition: string)

  /** The classification as a table of groups; the reference definition. */
  const Table: seq<Group> := [
    Group({0}, "Clear sky"),
    Group({1, 2}, "Partly cloudy"),
    Group({3}, "Overcast"),
    Group({45, 48}, "Foggy"),
    Group({51, 53, 55}, "Drizzle"),
    Group({61, 63, 65}, "Rain"),
    Group({71, 73, 75}, "Snow"),
    Group({80, 81, 82}, "Rain showers"),
    Group({85, 86}, "Snow showers"),
    Group({95, 96, 99}, "Thunderstorm")
  ]

  /** `getWeatherCondition`. */
  function GetWeatherCondition(code: int): (condition: string)
    ensures condition in Labels
    ensures condition == Unknown <==> code !in KnownCodes
  {
    match code
    case 0 => "Clear sky"
    case 1 | 2 => "Partly cloudy"
    case 3 => "Overcast"
    case 45 | 48 => "Foggy"
    case 51 | 53 | 55 => "Drizzle"
    case 61 | 63 | 65 => "Rain"
    case 71 | 73 | 75 => "Snow"
    case 80 | 81 | 82 => "Rain showers"
    case 85 | 86 => "Snow showers"
    case 95 | 96 | 99 => "Thunderstorm"
    case _ => Unknown
  }

  /** A code maps to a group's label exactly when the group lists it: each
      group is the full preimage of its label. */
  lemma GroupPreimage(i: int, code: int)
    requires 0 <= i < |Table|
    ensures GetWeatherCondition(code) == Table[i].condition <==> code in Table[i].codes
  {
    if i == 0 {
      assert Table[i] == Group({0}, "Clear sky");
    } else if i == 1 {
      assert Table[i] == Group({1, 2}, "Partly cloudy");
    } else if i == 2 {
      assert Table[i] == Group({3}, "Overcast");
    } else if i == 3 {
      assert Table[i] == Group({45, 48}, "Foggy");
    } else if i == 4 {
      assert Table[i] == Group({51, 53, 55}, "Drizzle");
    } else if i == 5 {
      assert Table[i] == Group({61, 63, 65}, "Rain");
    } else if i == 6 {
      assert Table[i] == Group({71, 73, 75}, "Snow");
    } else if i == 7 {
      assert Table[i] == Group({80, 81, 82}, "Rain showers");
    } else if i == 8 {
      assert Table[i] == Group({85, 86}, "Snow showers");
    } else {
      assert Table[i] == Group({95, 96, 99}, "Thunderstorm");
    }
  }

  /** A code has a label of its own exactly when some group of the table lists it. */
  lemma KnownCodesAreGrouped(code: int)
    ensures code in KnownCodes <==> exists i :: 0 <= i < |Table| && code in Table[i].codes
  {
    if code in KnownCodes {
      var c := GetWeatherCondition(code);
      var i := if c == "Clear sky" then 0
        else if c == "Partly cloudy" then 1
        else if c == "Overcast" then 2
        else if c == "Foggy" then 3
        else if c == "Drizzle" then 4
        else if c == "Rain" then 5
        else if c == "Snow" then 6
        else if c == "Rain showers" then 7
        else if c == "Snow showers" then 8
        else 9;
      assert Table[i].condition == c;
      GroupPreimage(i, code);
    } else {
      forall i | 0 <= i < |Table|
        ensures code !in Table[i].codes
      {
        GroupPreimage(i, code);
      }
    }
  }

  /** The points fixed by the service's own test table. */
  lemma ConditionTestVectors()
    ensures GetWeatherCondition(0) == "Clear sky"
    ensures GetWeatherCondition(1) == "Partly cloudy"
    ensures GetWeatherCondition(3) == "Overcast"
    ensures GetWeatherCondition(45) == "Foggy"
    ensures GetWeatherCondition(61) == "Rain"
    ensures GetWeatherCondition(95) == "Thunderstorm"
    ensures GetWeatherCondition(999) == "Unknown"
  {
  }
}
