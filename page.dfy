/** The page (app/page.tsx): either the configuration form or the member list
    for the saved configuration, switched by "Change Configuration". */
module Page {
  import opened Wrappers
  import opened Http
  import opened GitLabConfig

  /** The page's two state slots. */
  datatype HomeState = HomeState(showConfig: bool, config: Option<Config>)

  /** What can happen to the page: the form reports a saved configuration,
      or "Change Configuration" is clicked. */
  datatype Event = Saved(config: Config) | ChangeConfiguration

  /** `useState(true)` and `useState(null)`. */
  const Initial := HomeState(true, None)

  /** The page's invariant: whenever the form is hidden there is a configuration. */
  predicate Inv(s: HomeState) {
    !s.showConfig ==> s.config.Some?
  }

  /** One event: saving stores the configuration and hides the form;
      "Change Configuration" shows the form and keeps the configuration. */
  function Step(s: HomeState, e: Event): (t: HomeState)
    ensures Inv(t)
    ensures e.Saved? ==> !t.showConfig && t.config == Some(e.config)
    ensures e.ChangeConfiguration? ==> t.showConfig && t.config == s.config
  {
    match e
    case Saved(c) => HomeState(false, Some(c))
    case ChangeConfiguration => HomeState(true, s.config)
  }

  /** The state after `events`, from the first render on. */
  function Run(events: seq<Event>): HomeState {
    if events == [] then Initial else Step(Run(events[..|events| - 1]), events[|events| - 1])
  }

  /** The configuration saved last in `events`, if any. */
  function LastSaved(events: seq<Event>): Option<Config> {
    if events == [] then None
    else if events[|events| - 1].Saved? then Some(events[|events| - 1].config)
    else LastSaved(events[..|events| - 1])
  }

  /** Every reachable state keeps the invariant. */
  lemma {:induction false} ReachableStatesKeepInv(events: seq<Event>)
    ensures Inv(Run(events))
  {
    if events != [] {
      ReachableStatesKeepInv(events[..|events| - 1]);
    }
  }

  /** The page holds the configuration saved last, and "Change
      Configuration" never loses it. */
  lemma {:induction false} RunHoldsLastSaved(events: seq<Event>)
    ensures Run(events).config == LastSaved(events)
  {
    if events != [] {
      RunHoldsLastSaved(events[..|events| - 1]);
    }
  }

  /** The form is shown exactly at the start and after "Change Configuration". */
  lemma {:induction false} FormShownIff(events: seq<Event>)
    ensures Run(events).showConfig <==> events == [] || events[|events| - 1].ChangeConfiguration?
  {
  }

  /** The props the member list receives. */
  datatype ListProps = ListProps(token: string, groupId: string)

  /** What the page renders. */
  datatype PageView = ConfigFormView | UsersView(list: Option<ListProps>)

  /** The form when `showConfig`, otherwise the header with the member list,
      which is there exactly when a configuration is and receives its token
      and group id. */
  function Render(s: HomeState): (v: PageView)
    ensures v == ConfigFormView <==> s.showConfig
    ensures v.UsersView? ==> (v.list.Some? <==> s.config.Some?)
    ensures v.UsersView? && v.list.Some? ==>
              v.list.value == ListProps(s.config.value.token, s.config.value.groupId)
  {
    if s.showConfig then ConfigFormView
    else UsersView(if s.config.Some? then Some(ListProps(s.config.value.token, s.config.value.groupId)) else None)
  }

  /** In every reachable state with the form hidden, the member list is shown. */
  lemma ListShownWhenFormHidden(events: seq<Event>)
    requires !Run(events).showConfig
    ensures Render(Run(events)).UsersView? && Render(Run(events)).list.Some?
  {
    ReachableStatesKeepInv(events);
  }

  /** The page component's state. */
  class Home {
    var showConfig: bool
    var config: Option<Config>

    function State(): HomeState
      reads this
    {
      HomeState(showConfig, config)
    }

    ghost predicate Valid()
      reads this
    {
      Inv(State())
    }

    constructor()
      ensures Valid() && State() == Initial
    {
      showConfig := true;
      config := None;
    }

    /** The `onConfigSaved` callback given to the form. */
    method OnConfigSaved(c: Config)
      requires Valid()
      modifies this
      ensures Valid() && State() == Step(old(State()), Saved(c))
    {
      config := Some(c);
      showConfig := false;
    }

    /** The "Change Configuration" button. */
    method OnChangeConfiguration()
      requires Valid()
      modifies this
      ensures Valid() && State() == Step(old(State()), ChangeConfiguration)
    {
      showConfig := true;
    }

    /** Submitting the form shown on this page: the form runs `handleSubmit`
        and, when it calls `onConfigSaved`, the page takes the configuration. */
    method SubmitForm(form: ConfigForm, probe: FetchOutcome<()>)
      requires Valid() && showConfig
      modifies this, form
      ensures Valid()
      ensures form.token == old(form.token) && form.groupId == old(form.groupId)
      ensures form.error == ErrorFor(Judge(form.token, form.groupId, probe))
      ensures form.probes == old(form.probes) +
                if MissingField(form.token, form.groupId) then [] else [Config(form.token, form.groupId)]
      ensures var saved := SavedConfig(old(form.token), old(form.groupId), probe);
              State() == if saved.Some? then Step(old(State()), Saved(saved.value)) else old(State())
    {
      var saved := form.HandleSubmit(probe);
      if saved.Some? {
        OnConfigSaved(saved.value);
      }
    }

    /** What the page shows now. */
    function View(): (v: PageView)
      requires Valid()
      reads this
      ensures v == ConfigFormView <==> showConfig
      ensures !showConfig ==> v.UsersView? && v.list.Some?
      ensures v.UsersView? && v.list.Some? ==> v.list.value == ListProps(config.value.token, config.value.groupId)
    {
      Render(State())
    }
  }
}
