/** `async_setup`: whether the YAML configuration asks for an import flow,
    and the data that flow is started with. */
module ConfigImport {
  import opened Wrappers
  import opened Bus

  const ImportName: string := "Velbus import"

  /** The outcome of `async_setup`: its return value and the data of the
      import flow it starts, None when it starts none. */
  datatype SetupResult = SetupResult(ok: bool, importData: Option<map<string, string>>)

  /** `config` is the YAML configuration, one mapping per integration domain.
      A present port is used only when it is non-empty (Python truthiness). */
  function AsyncSetup(config: map<string, map<string, string>>): (r: SetupResult)
    ensures r.ok
    ensures r.importData.Some? <==> Domain in config
    ensures r.importData.Some? ==>
      (r.importData.value != map[] <==> ConfPort in config[Domain] && config[Domain][ConfPort] != "")
    ensures r.importData.Some? && r.importData.value != map[] ==>
      r.importData.value.Keys == {ConfPort, ConfName} &&
      r.importData.value[ConfPort] == config[Domain][ConfPort] &&
      r.importData.value[ConfName] == ImportName
  {
    if Domain !in config then SetupResult(true, None)
    else
      var port := if ConfPort in config[Domain] then config[Domain][ConfPort] else "";
      var data := if port != "" then map[ConfPort := port, ConfName := ImportName] else map[];
      SetupResult(true, Some(data))
  }

  /** Keys of the domain's configuration other than the port do not change
      what is imported. */
  lemma ImportIgnoresExtraKeys(config: map<string, map<string, string>>, key: string, value: string)
    requires Domain in config && key != ConfPort
    ensures AsyncSetup(config[Domain := config[Domain][key := value]]) == AsyncSetup(config)
  {
  }
}
