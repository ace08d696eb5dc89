/**
 * The application context: the run flag and state the lifecycle is driven
 * by, and the loaded config.json from which each module gets its section.
 */
module AppContext {
  import opened Wrappers
  import opened Json
  import Events

  // APP_STATE
  const NO_APP_STATE: int := 0
  const CONFIGURATION: int := 1
  const START: int := 2
  const LIVE: int := 3
  const STOPPED: int := 4
  const ERROR: int := 5
  const SHUT_DOWN: int := 1000

  /** The checks `_load_module_configs` makes on the parsed config.json before keeping it. */
  predicate HasModuleSections(doc: Json)
  {
    !IsEmpty(doc) && Contains(doc, "messaging") && Contains(doc, "pipeline") && Contains(doc, "processing")
  }

  /** A document that holds the three sections is an object with those members. */
  lemma ModuleSectionsPresent(doc: Json)
    requires HasModuleSections(doc)
    ensures doc.Obj?
    ensures Lookup(doc.members, "pipeline") == Some(Get(doc, "pipeline"))
    ensures Lookup(doc.members, "processing") == Some(Get(doc, "processing"))
    ensures Lookup(doc.members, "messaging") == Some(Get(doc, "messaging"))
  {
  }

  /** The non-emptiness check is implied by the key checks that follow it. */
  lemma EmptyCheckSubsumed(doc: Json)
    requires Contains(doc, "messaging")
    ensures !IsEmpty(doc)
  {
    ContainsMeansNonEmpty(doc, "messaging");
  }

  class ApplicationContext {
    var runState: bool
    var appState: int
    var configs: Json

    constructor ()
      ensures !runState && appState == NO_APP_STATE && configs == Null
    {
      runState := false;
      appState := NO_APP_STATE;
      configs := Null;
    }

    /** `kill_app`: ask the application to shut down; the run flag is untouched. */
    method KillApp()
      modifies this`appState
      ensures appState == SHUT_DOWN
    {
      appState := SHUT_DOWN;
    }

    /**
     * `_load_module_configs` after the file has been read and parsed: keep the
     * document only when it holds the messaging, pipeline and processing sections.
     */
    method LoadModuleConfigs(doc: Json) returns (ok: bool)
      modifies this`configs
      ensures ok <==> HasModuleSections(doc)
      ensures configs == if ok then doc else old(configs)
    {
      if IsEmpty(doc) {
        return false;
      }
      if !Contains(doc, "messaging") {
        return false;
      }
      if !Contains(doc, "pipeline") {
        return false;
      }
      if !Contains(doc, "processing") {
        return false;
      }
      configs := doc;
      ok := true;
    }

    /**
     * `get_configs`: the section for the pipeline, processing or Kafka module
     * (null when it is missing); None where the type is any other and the call throws.
     */
    function GetConfigs(moduleType: int): (r: Option<Json>)
      reads this
      ensures r.Some? <==> moduleType in {Events.PIPELINE, Events.PROCESSING, Events.KAFKA}
      ensures moduleType == Events.PIPELINE ==> r == Some(Get(configs, "pipeline"))
      ensures moduleType == Events.PROCESSING ==> r == Some(Get(configs, "processing"))
      ensures moduleType == Events.KAFKA ==> r == Some(Get(configs, "messaging"))
    {
      if moduleType == Events.PIPELINE then Some(Get(configs, "pipeline"))
      else if moduleType == Events.PROCESSING then Some(Get(configs, "processing"))
      else if moduleType == Events.KAFKA then Some(Get(configs, "messaging"))
      else None
    }
  }

  /** Before any successful load every section is null. */
  lemma UnloadedSectionsAreNull(ctx: ApplicationContext, moduleType: int)
    requires ctx.configs == Null
    requires ctx.GetConfigs(moduleType).Some?
    ensures ctx.GetConfigs(moduleType) == Some(Null)
  {
  }
}
