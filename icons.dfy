/** The weather icon chosen for an icon code of the weather service: a table
    from code to icon name, with the cloud icon as the fallback for any code
    the table does not list. */
module Icons {

  /** The icon code table: a two-digit condition group followed by `d` (day)
      or `n` (night). */
  const WeatherIcons: map<string, string> := map[
    "01d" := "sun",
    "01n" := "moon",
    "02d" := "cloud-sun",
    "02n" := "cloud-moon",
    "03d" := "cloud",
    "03n" := "cloud",
    "04d" := "cloud",
    "04n" := "cloud",
    "09d" := "cloud-rain",
    "09n" := "cloud-rain",
    "10d" := "cloud-sun-rain",
    "10n" := "cloud-moon-rain",
    "11d" := "cloud-lightning",
    "11n" := "cloud-lightning",
    "13d" := "snowflake",
    "13n" := "snowflake",
    "50d" := "fog",
    "50n" := "fog"
  ]

  /** The names of the drawings the page has. */
  const IconNames: set<string> := {
    "sun", "moon", "cloud-sun", "cloud-moon", "cloud", "cloud-rain",
    "cloud-sun-rain", "cloud-moon-rain", "cloud-lightning", "snowflake", "fog"
  }

  /** First lookup: the table's name for the code, `cloud` when the code is
      not listed. */
  function IconName(code: string): (name: string)
    ensures code in WeatherIcons ==> name == WeatherIcons[code]
    ensures code !in WeatherIcons ==> name == "cloud"
    ensures name in IconNames
  {
    if code in WeatherIcons then WeatherIcons[code] else "cloud"
  }

  /** The drawing shown for a code: the first lookup's name when the page has
      a drawing of that name, the cloud drawing otherwise. */
  function IconFor(code: string): (name: string)
    ensures name in IconNames
  {
    var n := IconName(code);
    if n in IconNames then n else "cloud"
  }

  /** Every code gets a drawing, and the second fallback never changes the
      table's choice: listed codes get their listed name, other codes the
      cloud. */
  lemma IconForTotal(code: string)
    ensures IconFor(code) in IconNames
    ensures code in WeatherIcons ==> IconFor(code) == WeatherIcons[code]
    ensures code !in WeatherIcons ==> IconFor(code) == "cloud"
  {
  }

  /** Day and night codes of the cloud, overcast and fog groups (03, 04,
      50) get the same drawing. */
  lemma SharedCloudyDrawings()
    ensures IconFor("03d") == IconFor("03n") == "cloud"
    ensures IconFor("04d") == IconFor("04n") == "cloud"
    ensures IconFor("50d") == IconFor("50n") == "fog"
  {
  }

  /** Day and night codes of the shower, storm and snow groups (09, 11, 13)
      get the same drawing. */
  lemma SharedPrecipitationDrawings()
    ensures IconFor("09d") == IconFor("09n") == "cloud-rain"
    ensures IconFor("11d") == IconFor("11n") == "cloud-lightning"
    ensures IconFor("13d") == IconFor("13n") == "snowflake"
  {
  }

  /** Day and night codes of the clear, few-clouds and rain groups (01, 02,
      10) get different drawings: a sun by day, a moon by night. */
  lemma DistinctDayNightDrawings()
    ensures IconFor("01d") == "sun" && IconFor("01n") == "moon"
    ensures IconFor("02d") == "cloud-sun" && IconFor("02n") == "cloud-moon"
    ensures IconFor("10d") == "cloud-sun-rain" && IconFor("10n") == "cloud-moon-rain"
  {
  }

  /** Only the eighteen listed codes escape the cloud fallback, and a code
      that is not a two-digit group followed by `d` or `n` is never listed. */
  lemma UnlistedCodes(code: string)
    requires |code| != 3 || (code[2] != 'd' && code[2] != 'n')
    ensures IconFor(code) == "cloud"
  {
  }
}
