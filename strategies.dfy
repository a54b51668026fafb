/**
 * The strategies page (app/strategies/page.jsx): the strategy records, the
 * sample data the simulated fetch delivers, the search filter, the
 * create/edit form handlers and the page state they change.
 */
module Strategies {
  import opened Wrappers
  import opened Text
  import opened SearchFilter
  import ListView

  datatype Performance = Performance(winRate: real, profitFactor: real, trades: nat, successfulTrades: nat)

  /** A strategy record; the source's `type` field is called `kind` here. */
  datatype Strategy = Strategy(
    id: string,
    name: string,
    kind: string,
    status: string,
    description: string,
    parameters: map<string, real>,
    performance: Performance,
    lastUpdated: string)

  /** The draft held by the create/edit form. */
  datatype FormData = FormData(name: string, kind: string, description: string, parameters: map<string, real>)

  /** The three top-level inputs whose `name` attribute `handleInputChange` reads. */
  datatype FormField = NameField | KindField | DescriptionField

  const IdPrefix: string := "strat-"

  /** The id `strat-${n}`. */
  function StrategyId(n: nat): string {
    IdPrefix + NatToString(n)
  }

  /** Distinct positions give distinct ids. */
  lemma StrategyIdInjective(a: nat, b: nat)
    requires StrategyId(a) == StrategyId(b)
    ensures a == b
  {
    PrefixedNatInjective(IdPrefix, a, b);
  }

  const MomentumDefaults: map<string, real> :=
    map["lookback_period" := 14.0, "buy_threshold" := 0.5, "sell_threshold" := 0.5]

  /** The form state the page starts with. */
  const InitialForm: FormData := FormData("", "simple_momentum", "", map[])

  /** The form state "New Strategy" opens with. */
  const CreateForm: FormData := FormData("", "simple_momentum", "", MomentumDefaults)

  /** The fixed sample list the simulated fetch delivers. */
  const MockStrategies: seq<Strategy> := [
    Strategy("strat-1", "Momentum Strategy", "simple_momentum", "active",
      "A momentum-based strategy that follows price trends",
      MomentumDefaults,
      Performance(62.5, 2.1, 56, 35), "2024-04-15T14:30:00Z"),
    Strategy("strat-2", "Mean Reversion", "mean_reversion", "active",
      "Strategy that trades reversions to the mean price",
      map["window" := 20.0, "std_dev_threshold" := 1.5],
      Performance(58.3, 1.7, 48, 28), "2024-04-12T09:15:00Z"),
    Strategy("strat-3", "MACD Crossover", "custom", "inactive",
      "Signals based on MACD indicator crossovers",
      map["fast_period" := 12.0, "slow_period" := 26.0, "signal_period" := 9.0],
      Performance(53.1, 1.3, 32, 17), "2024-03-25T11:45:00Z")
  ]

  /** The ids are exactly strat-1, strat-2, ... in list order. */
  ghost predicate IdsSequential(s: seq<Strategy>) {
    forall i :: 0 <= i < |s| ==> s[i].id == StrategyId(i + 1)
  }

  /** The sample data satisfies the id invariant. */
  lemma MockStrategiesSequential()
    ensures IdsSequential(MockStrategies)
  {
  }

  /** Under the id invariant no two entries share an id. */
  lemma SequentialIdsDistinct(s: seq<Strategy>)
    requires IdsSequential(s)
    ensures forall i, j :: 0 <= i < |s| && 0 <= j < |s| && i != j ==> s[i].id != s[j].id
  {
    forall i, j | 0 <= i < |s| && 0 <= j < |s| && s[i].id == s[j].id
      ensures i == j
    {
      StrategyIdInjective(i + 1, j + 1);
    }
  }

  /** Under the id invariant the id "New Strategy" generates is used by no entry. */
  lemma NextIdFresh(s: seq<Strategy>)
    requires IdsSequential(s)
    ensures forall i :: 0 <= i < |s| ==> s[i].id != StrategyId(|s| + 1)
  {
    forall i | 0 <= i < |s|
      ensures s[i].id != StrategyId(|s| + 1)
    {
      if s[i].id == StrategyId(|s| + 1) {
        StrategyIdInjective(i + 1, |s| + 1);
      }
    }
  }

  /** The search test: name or type contains the term, ignoring case. */
  predicate StrategyMatches(x: Strategy, term: string) {
    MatchesSearch(x.name, term) || MatchesSearch(x.kind, term)
  }

  /**
   * `filteredStrategies`: the order-preserving subsequence of the matching
   * entries; every occurrence of a matching entry is kept.
   */
  function FilterStrategies(s: seq<Strategy>, term: string): (r: seq<Strategy>)
    ensures IsSubsequence(r, s)
    ensures forall i :: 0 <= i < |r| ==> StrategyMatches(r[i], term)
    ensures forall x :: multiset(r)[x] == if StrategyMatches(x, term) then multiset(s)[x] else 0
  {
    var keep := (x: Strategy) => StrategyMatches(x, term);
    FilterIsSubsequence(s, keep);
    FilterCounts(s, keep);
    Filter(s, keep)
  }

  /** An empty search term shows the whole list. */
  lemma FilterEmptyTermIsIdentity(s: seq<Strategy>)
    ensures FilterStrategies(s, "") == s
  {
    forall i | 0 <= i < |s|
      ensures StrategyMatches(s[i], "")
    {
      EmptyTermMatches(s[i].name);
    }
    FilterAllPass(s, (x: Strategy) => StrategyMatches(x, ""));
  }

  /** The search is case-insensitive in the term. */
  lemma FilterIgnoresTermCase(s: seq<Strategy>, t1: string, t2: string)
    requires ToLower(t1) == ToLower(t2)
    ensures FilterStrategies(s, t1) == FilterStrategies(s, t2)
  {
    FilterCongruent(s, (x: Strategy) => StrategyMatches(x, t1), (x: Strategy) => StrategyMatches(x, t2));
  }

  /** `strategies.find(s => s.id === id)`, as the position of the first match. */
  function FindIndex(s: seq<Strategy>, id: string): (r: Option<nat>)
    ensures r.Some? ==> r.value < |s| && s[r.value].id == id
    ensures r.Some? ==> forall j :: 0 <= j < r.value ==> s[j].id != id
    ensures r.None? ==> forall j :: 0 <= j < |s| ==> s[j].id != id
    decreases |s|
  {
    if s == [] then None
    else if s[0].id == id then Some(0)
    else match FindIndex(s[1..], id)
      case None => None
      case Some(k) => Some(k + 1)
  }

  /** `{ ...s, ...formData, lastUpdated: now }`. */
  function Merge(x: Strategy, f: FormData, now: string): Strategy {
    x.(name := f.name, kind := f.kind, description := f.description, parameters := f.parameters,
       lastUpdated := now)
  }

  /**
   * The update branch of `handleFormSubmit`: same length and order; every
   * entry whose id differs is untouched; an entry with the edited id takes the
   * form's name, type, description and parameters and keeps its id, status
   * and performance.
   */
  function ApplyEdit(s: seq<Strategy>, id: string, f: FormData, now: string): (r: seq<Strategy>)
    ensures |r| == |s|
    ensures forall i :: 0 <= i < |s| && s[i].id != id ==> r[i] == s[i]
    ensures forall i :: 0 <= i < |s| && s[i].id == id ==>
      && r[i].id == s[i].id && r[i].status == s[i].status && r[i].performance == s[i].performance
      && r[i].name == f.name && r[i].kind == f.kind && r[i].description == f.description
      && r[i].parameters == f.parameters && r[i].lastUpdated == now
  {
    seq(|s|, i requires 0 <= i < |s| => if s[i].id == id then Merge(s[i], f, now) else s[i])
  }

  /** Editing never changes an id at any position, so the id invariant survives. */
  lemma ApplyEditKeepsIds(s: seq<Strategy>, id: string, f: FormData, now: string)
    requires IdsSequential(s)
    ensures IdsSequential(ApplyEdit(s, id, f, now))
  {
  }

  /** The record the create branch of `handleFormSubmit` appends to a list of length `n`. */
  function NewStrategy(n: nat, f: FormData, now: string): (x: Strategy)
    ensures x.id == StrategyId(n + 1)
    ensures x.name == f.name && x.kind == f.kind && x.description == f.description
    ensures x.parameters == f.parameters && x.lastUpdated == now
    ensures x.status == "inactive" && x.performance == Performance(0.0, 0.0, 0, 0)
  {
    Strategy(StrategyId(n + 1), f.name, f.kind, "inactive", f.description, f.parameters,
      Performance(0.0, 0.0, 0, 0), now)
  }

  /** Appending the new record keeps the id invariant, and its id was unused. */
  lemma CreateKeepsIdsSequential(s: seq<Strategy>, f: FormData, now: string)
    requires IdsSequential(s)
    ensures IdsSequential(s + [NewStrategy(|s|, f, now)])
    ensures forall i :: 0 <= i < |s| ==> s[i].id != NewStrategy(|s|, f, now).id
  {
    NextIdFresh(s);
  }

  /** `handleInputChange`: sets one top-level field; the parameters are never touched. */
  function SetField(f: FormData, field: FormField, value: string): (g: FormData)
    ensures g.parameters == f.parameters
    ensures g.name == (if field == NameField then value else f.name)
    ensures g.kind == (if field == KindField then value else f.kind)
    ensures g.description == (if field == DescriptionField then value else f.description)
  {
    match field
    case NameField => f.(name := value)
    case KindField => f.(kind := value)
    case DescriptionField => f.(description := value)
  }

  /** `handleParameterChange`: sets one parameter key; the other keys and fields stay. */
  function SetParameter(f: FormData, key: string, value: real): (g: FormData)
    ensures g.name == f.name && g.kind == f.kind && g.description == f.description
    ensures g.parameters.Keys == f.parameters.Keys + {key}
    ensures g.parameters[key] == value
    ensures forall k :: k in f.parameters && k != key ==> g.parameters[k] == f.parameters[k]
  {
    f.(parameters := f.parameters[key := value])
  }

  /** The state of the strategies page. */
  class StrategiesPage {
    var strategies: seq<Strategy>
    var searchTerm: string
    var loading: bool
    var showCreateForm: bool
    var editingStrategy: Option<Strategy>
    var formData: FormData

    /** Ids stay strat-1 .. strat-n: nothing deletes, and every write keeps them. */
    ghost predicate Valid()
      reads this
    {
      IdsSequential(strategies)
    }

    /** Mount: the initial state, with the simulated fetch started. */
    constructor ()
      ensures Valid()
      ensures strategies == [] && searchTerm == "" && loading && !showCreateForm
      ensures editingStrategy == None && formData == InitialForm
    {
      strategies := [];
      searchTerm := "";
      loading := true;
      showCreateForm := false;
      editingStrategy := None;
      formData := InitialForm;
    }

    /** The end of the simulated fetch (mount or refresh). */
    method CompleteFetch()
      modifies this
      ensures Valid()
      ensures strategies == MockStrategies && !loading
      ensures searchTerm == old(searchTerm) && showCreateForm == old(showCreateForm)
      ensures editingStrategy == old(editingStrategy) && formData == old(formData)
    {
      MockStrategiesSequential();
      strategies := MockStrategies;
      loading := false;
    }

    /** `handleRefresh`: the start of a new simulated fetch. */
    method HandleRefresh()
      requires Valid()
      modifies this
      ensures Valid()
      ensures loading && strategies == old(strategies)
      ensures searchTerm == old(searchTerm) && showCreateForm == old(showCreateForm)
      ensures editingStrategy == old(editingStrategy) && formData == old(formData)
    {
      loading := true;
    }

    /** The search box's `onChange`. */
    method SetSearchTerm(term: string)
      requires Valid()
      modifies this
      ensures Valid()
      ensures searchTerm == term && strategies == old(strategies) && loading == old(loading)
      ensures showCreateForm == old(showCreateForm)
      ensures editingStrategy == old(editingStrategy) && formData == old(formData)
    {
      searchTerm := term;
    }

    /** `handleCreateStrategy`: clear the edit target, load the defaults, open the form. */
    method HandleCreateStrategy()
      requires Valid()
      modifies this
      ensures Valid()
      ensures editingStrategy == None && formData == CreateForm && showCreateForm
      ensures strategies == old(strategies) && searchTerm == old(searchTerm) && loading == old(loading)
    {
      editingStrategy := None;
      formData := CreateForm;
      showCreateForm := true;
    }

    /**
     * `handleEditStrategy`: with an unknown id nothing changes; otherwise the
     * first entry with that id becomes the edit target, its fields are copied
     * into the form and the form opens.
     */
    method HandleEditStrategy(strategyId: string)
      requires Valid()
      modifies this
      ensures Valid()
      ensures strategies == old(strategies) && searchTerm == old(searchTerm) && loading == old(loading)
      ensures (forall i :: 0 <= i < |strategies| ==> strategies[i].id != strategyId) ==>
        && editingStrategy == old(editingStrategy) && formData == old(formData)
        && showCreateForm == old(showCreateForm)
      ensures (exists i :: 0 <= i < |strategies| && strategies[i].id == strategyId) ==>
        && editingStrategy.Some? && editingStrategy.value in strategies
        && editingStrategy.value.id == strategyId
        && formData == FormData(editingStrategy.value.name, editingStrategy.value.kind,
                                editingStrategy.value.description, editingStrategy.value.parameters)
        && showCreateForm
    {
      var found := FindIndex(strategies, strategyId);
      if found.Some? {
        var strategy := strategies[found.value];
        editingStrategy := Some(strategy);
        formData := FormData(strategy.name, strategy.kind, strategy.description, strategy.parameters);
        showCreateForm := true;
      }
    }

    /** The Cancel button: closes the form and nothing else. */
    method CancelForm()
      requires Valid()
      modifies this
      ensures Valid()
      ensures !showCreateForm
      ensures strategies == old(strategies) && searchTerm == old(searchTerm) && loading == old(loading)
      ensures editingStrategy == old(editingStrategy) && formData == old(formData)
    {
      showCreateForm := false;
    }

    /** `handleInputChange`. */
    method HandleInputChange(field: FormField, value: string)
      requires Valid()
      modifies this
      ensures Valid()
      ensures formData == SetField(old(formData), field, value)
      ensures strategies == old(strategies) && searchTerm == old(searchTerm) && loading == old(loading)
      ensures showCreateForm == old(showCreateForm) && editingStrategy == old(editingStrategy)
    {
      formData := SetField(formData, field, value);
    }

    /** `handleParameterChange`. */
    method HandleParameterChange(key: string, value: real)
      requires Valid()
      modifies this
      ensures Valid()
      ensures formData == SetParameter(old(formData), key, value)
      ensures strategies == old(strategies) && searchTerm == old(searchTerm) && loading == old(loading)
      ensures showCreateForm == old(showCreateForm) && editingStrategy == old(editingStrategy)
    {
      formData := SetParameter(formData, key, value);
    }

    /**
     * `handleFormSubmit`, with `now` standing for `new Date().toISOString()`.
     * Without an edit target it appends exactly one record with a fresh id;
     * with one it merges the form into the entries carrying the target's id.
     * Either way the form closes; the edit target and the draft are kept.
     */
    method HandleFormSubmit(now: string)
      requires Valid()
      modifies this
      ensures Valid()
      ensures old(editingStrategy).None? ==>
        && strategies == old(strategies) + [NewStrategy(|old(strategies)|, old(formData), now)]
        && forall i :: 0 <= i < |old(strategies)| ==> old(strategies)[i].id != strategies[|strategies| - 1].id
      ensures old(editingStrategy).Some? ==>
        strategies == ApplyEdit(old(strategies), old(editingStrategy).value.id, old(formData), now)
      ensures !showCreateForm
      ensures searchTerm == old(searchTerm) && loading == old(loading)
      ensures editingStrategy == old(editingStrategy) && formData == old(formData)
    {
      if editingStrategy.Some? {
        ApplyEditKeepsIds(strategies, editingStrategy.value.id, formData, now);
        strategies := ApplyEdit(strategies, editingStrategy.value.id, formData, now);
      } else {
        CreateKeepsIdsSequential(strategies, formData, now);
        strategies := strategies + [NewStrategy(|strategies|, formData, now)];
      }
      showCreateForm := false;
    }

    /**
     * A submit as the browser delivers it. The name input is `required`, so
     * with an empty name the browser's constraint validation stops the submit
     * and `handleFormSubmit` does not run; otherwise it runs.
     */
    method SubmitForm(now: string)
      requires Valid()
      modifies this
      ensures Valid()
      ensures old(formData.name) == "" ==>
        && strategies == old(strategies) && showCreateForm == old(showCreateForm)
        && searchTerm == old(searchTerm) && loading == old(loading)
        && editingStrategy == old(editingStrategy) && formData == old(formData)
      ensures old(formData.name) != "" && old(editingStrategy).None? ==>
        && strategies == old(strategies) + [NewStrategy(|old(strategies)|, old(formData), now)]
        && strategies[|strategies| - 1].name != ""
      ensures old(formData.name) != "" && old(editingStrategy).Some? ==>
        strategies == ApplyEdit(old(strategies), old(editingStrategy).value.id, old(formData), now)
      ensures old(formData.name) != "" ==>
        && !showCreateForm && searchTerm == old(searchTerm) && loading == old(loading)
        && editingStrategy == old(editingStrategy) && formData == old(formData)
    {
      if formData.name != "" {
        HandleFormSubmit(now);
      }
    }

    /** `filteredStrategies` of the current state. */
    function Filtered(): (r: seq<Strategy>)
      reads this
      ensures IsSubsequence(r, strategies)
      ensures searchTerm == "" ==> r == strategies
    {
      FilterEmptyTermIsIdentity(strategies);
      FilterStrategies(strategies, searchTerm)
    }

    /** What the list area shows: spinner, "No strategies found", or one card per filtered entry. */
    function View(): (v: ListView.View<Strategy>)
      reads this
      ensures v.Spinner? <==> loading
      ensures v.NothingFound? <==> !loading && |Filtered()| == 0
      ensures v.Items? ==> v.items == Filtered()
    {
      ListView.Select(loading, Filtered())
    }
  }
}
