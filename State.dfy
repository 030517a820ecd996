/** The shared application state: one `_AppState` instance, filled once by
    `initialize` and handed out by `get_state`. */
module State {
  import opened Outcomes
  import opened Config
  import History
  import AiService

  /** The three fields of `_AppState`, as a value. */
  datatype Fields = Fields(
    aiService: Option<AiService.AIService>,
    historyService: Option<History.HistoryService>,
    settings: Option<Settings>)

  const Empty := Fields(None, None, None)

  /** What `initialize` leaves: nothing changes once settings are present;
      otherwise the three arguments are stored. */
  function AfterInitialize(f: Fields, aiService: Option<AiService.AIService>,
                           historyService: Option<History.HistoryService>, settings: Option<Settings>)
    : (r: Fields)
    ensures f.settings.Some? ==> r == f
    ensures f.settings.None? ==> r.aiService == aiService && r.historyService == historyService && r.settings == settings
  {
    if f.settings.Some? then f else Fields(aiService, historyService, settings)
  }

  /** A second `initialize` after one that stored settings changes nothing. */
  lemma InitializeOnce(f: Fields,
                       a1: Option<AiService.AIService>, h1: Option<History.HistoryService>, s1: Option<Settings>,
                       a2: Option<AiService.AIService>, h2: Option<History.HistoryService>, s2: Option<Settings>)
    requires f.settings.Some? || s1.Some?
    ensures AfterInitialize(AfterInitialize(f, a1, h1, s1), a2, h2, s2) == AfterInitialize(f, a1, h1, s1)
  {
  }

  /** The guard looks only at settings: a first call with no settings stores its
      services yet leaves the state open to the next call, which then wins. */
  lemma GuardOnlyOnSettings(a1: Option<AiService.AIService>, h1: Option<History.HistoryService>,
                            a2: Option<AiService.AIService>, h2: Option<History.HistoryService>, s2: Option<Settings>)
    ensures AfterInitialize(Empty, a1, h1, None) == Fields(a1, h1, None)
    ensures AfterInitialize(AfterInitialize(Empty, a1, h1, None), a2, h2, s2) == Fields(a2, h2, s2)
  {
  }

  class AppState {
    var aiService: Option<AiService.AIService>
    var historyService: Option<History.HistoryService>
    var settings: Option<Settings>

    function Current(): Fields
      reads this
    {
      Fields(aiService, historyService, settings)
    }

    /** `_AppState()`: every field is None. */
    constructor ()
      ensures Current() == Empty
    {
      aiService := None;
      historyService := None;
      settings := None;
    }

    /** `initialize(ai_service, history_service, settings)`: ignored once settings
        are present, otherwise stores exactly its arguments. */
    method Initialize(aiService: Option<AiService.AIService>, historyService: Option<History.HistoryService>,
                      settings: Option<Settings>)
      modifies this
      ensures Current() == AfterInitialize(old(Current()), aiService, historyService, settings)
    {
      if this.settings.Some? {
        return;
      }
      this.aiService := aiService;
      this.historyService := historyService;
      this.settings := settings;
    }
  }

  /** The module: the single `APP_STATE` created at import. */
  class Application {
    const appState: AppState

    constructor ()
      ensures fresh(appState) && appState.Current() == Empty
    {
      appState := new AppState();
    }

    /** `get_state()`: always the same instance. */
    method GetState() returns (s: AppState)
      ensures s == appState
    {
      s := appState;
    }

    /** `initialize_state(...)`: initialises the shared state before the
        application body runs (the body after `yield` is not modelled). */
    method InitializeState(aiService: Option<AiService.AIService>, historyService: Option<History.HistoryService>,
                           settings: Option<Settings>)
      modifies appState
      ensures appState.Current() == AfterInitialize(old(appState.Current()), aiService, historyService, settings)
    {
      appState.Initialize(aiService, historyService, settings);
    }
  }
}
