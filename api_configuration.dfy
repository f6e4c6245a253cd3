/** `APIConfiguration.nasaAPIKey`: the NASA API key, read from the process
    environment, which is passed in as a map. */
module APIConfiguration {
  const KeyVariable: string := "NASA_API_KEY"
  const DemoKey: string := "DEMO_KEY"

  /** The environment's `NASA_API_KEY` when it is set and non-empty, and the
      public demonstration key otherwise; never the empty string. */
  function NasaAPIKey(environment: map<string, string>): (key: string)
    ensures key != ""
    ensures KeyVariable in environment && environment[KeyVariable] != "" ==> key == environment[KeyVariable]
    ensures KeyVariable !in environment || environment[KeyVariable] == "" ==> key == DemoKey
  {
    if KeyVariable in environment && environment[KeyVariable] != "" then environment[KeyVariable] else DemoKey
  }

  /** Only `NASA_API_KEY` matters: environments that agree on it give the
      same key. */
  lemma NasaAPIKeyOnlyReadsItsVariable(e1: map<string, string>, e2: map<string, string>)
    requires (KeyVariable in e1 <==> KeyVariable in e2)
    requires KeyVariable in e1 ==> e1[KeyVariable] == e2[KeyVariable]
    ensures NasaAPIKey(e1) == NasaAPIKey(e2)
  {
  }

  /** Setting the variable to a non-empty key selects that key; setting it to
      the empty string is the same as leaving it unset. */
  lemma SettingTheKey(environment: map<string, string>, value: string)
    ensures value != "" ==> NasaAPIKey(environment[KeyVariable := value]) == value
    ensures NasaAPIKey(environment[KeyVariable := ""]) == NasaAPIKey(environment - {KeyVariable})
  {
  }
}
