/** Validation and construction of a configuration, once its values have been taken out of the file. */
module ConfigurationReader {
  import opened Values
  import opened Experiments
  import opened Servers
  import opened Ledgers
  import opened Reachable
  import opened Protocol

  /** The values of a configuration file, as lists. */
  datatype Raw = Raw(
    roundSeconds: int,
    reviewSeconds: int,
    nPlayers: nat,
    nRounds: nat,
    replaceRule: bool,
    improvementRule: bool,
    firstCreateRound: nat,
    dividends: seq<nat>,
    realizations: seq<nat>,
    marginReqs: seq<nat>,
    marginMaxes: seq<nat>,
    archetypes: map<string, SubjectConfiguration>,
    roles: seq<string>)

  /** The first reason to refuse a file, in the order of the checks. */
  ghost function Problem(raw: Raw): Option<ConfigError> {
    if |raw.roles| < raw.nPlayers then Some(TooFewRoleAssignments)
    else if |raw.realizations| < raw.nRounds then Some(TooFewDividendRealizations)
    else if |raw.marginReqs| < raw.nRounds || |raw.marginMaxes| < raw.nRounds then Some(TooFewMarginRequirements)
    else if exists r :: r in raw.realizations && r >= |raw.dividends| then Some(InvalidDividendRealization)
    else if exists i :: 0 <= i < raw.nPlayers && raw.roles[i] !in raw.archetypes then Some(UnknownRole)
    else None
  }

  /** A round entry as the file describes it: its number, its realized dividend, its margins. */
  ghost predicate RoundEntry(raw: Raw, i: nat, conf: RoundConfiguration)
    requires i < |raw.realizations| && i < |raw.marginReqs| && i < |raw.marginMaxes|
  {
    && conf.round == i + 1
    && (conf.canCreate <==> i + 1 >= raw.firstCreateRound)
    && raw.realizations[i] < |raw.dividends| && conf.dividend == raw.dividends[raw.realizations[i]]
    && conf.marginReq == raw.marginReqs[i] && conf.marginMax == raw.marginMaxes[i]
  }

  /** One warning for each list that is longer than needed, in the order of the checks. */
  ghost function SizeWarnings(raw: Raw): seq<ConfigWarning> {
    (if |raw.roles| > raw.nPlayers then [TooManyRoleAssignments] else [])
    + (if |raw.realizations| > raw.nRounds then [TooManyDividendRealizations] else [])
    + (if |raw.marginReqs| > raw.nRounds then [TooManyMarginRequirements] else [])
    + (if |raw.marginMaxes| > raw.nRounds then [TooManyMarginRequirements] else [])
  }

  method CheckSizes(raw: Raw) returns (error: Option<ConfigError>, warnings: seq<ConfigWarning>)
    ensures error.None? <==> |raw.roles| >= raw.nPlayers && |raw.realizations| >= raw.nRounds
                             && |raw.marginReqs| >= raw.nRounds && |raw.marginMaxes| >= raw.nRounds
    ensures error.Some? ==> error == Problem(raw)
    ensures error.None? ==> warnings == SizeWarnings(raw)
  {
    warnings := [];
    if |raw.roles| < raw.nPlayers {
      return Some(TooFewRoleAssignments), warnings;
    }
    if |raw.roles| > raw.nPlayers {
      warnings := warnings + [TooManyRoleAssignments];
    }
    if |raw.realizations| < raw.nRounds {
      return Some(TooFewDividendRealizations), warnings;
    }
    if |raw.marginReqs| < raw.nRounds {
      return Some(TooFewMarginRequirements), warnings;
    }
    if |raw.marginMaxes| < raw.nRounds {
      return Some(TooFewMarginRequirements), warnings;
    }
    if |raw.realizations| > raw.nRounds {
      warnings := warnings + [TooManyDividendRealizations];
    }
    if |raw.marginReqs| > raw.nRounds {
      warnings := warnings + [TooManyMarginRequirements];
    }
    if |raw.marginMaxes| > raw.nRounds {
      warnings := warnings + [TooManyMarginRequirements];
    }
    return None, warnings;
  }

  method RealizationsValid(raw: Raw) returns (valid: bool)
    ensures valid <==> forall r | r in raw.realizations :: r < |raw.dividends|
  {
    for i := 0 to |raw.realizations|
      invariant forall k | 0 <= k < i :: raw.realizations[k] < |raw.dividends|
    {
      if raw.realizations[i] >= |raw.dividends| {
        assert raw.realizations[i] in raw.realizations;
        return false;
      }
    }
    return true;
  }

  method BuildRounds(raw: Raw) returns (rounds: seq<RoundConfiguration>)
    requires |raw.realizations| >= raw.nRounds && |raw.marginReqs| >= raw.nRounds && |raw.marginMaxes| >= raw.nRounds
    requires forall r | r in raw.realizations :: r < |raw.dividends|
    ensures |rounds| == raw.nRounds
    ensures forall i | 0 <= i < raw.nRounds :: RoundEntry(raw, i, rounds[i])
  {
    rounds := [];
    for i := 0 to raw.nRounds
      invariant |rounds| == i
      invariant forall k | 0 <= k < i :: RoundEntry(raw, k, rounds[k])
    {
      var round := i + 1;
      assert raw.realizations[i] in raw.realizations;
      rounds := rounds + [RoundConfiguration(
                            round >= raw.firstCreateRound, round, raw.dividends[raw.realizations[i]],
                            raw.marginReqs[i], raw.marginMaxes[i])];
    }
  }

  /** Some player's role gives no instructions file. */
  ghost predicate LacksInstructions(raw: Raw, n: nat)
    requires n <= |raw.roles|
  {
    exists i :: 0 <= i < n && raw.roles[i] in raw.archetypes
                && raw.archetypes[raw.roles[i]].instructions == Some("")
  }

  method AssignRoles(raw: Raw)
    returns (known: bool, subjects: map<nat, SubjectConfiguration>, validInstructions: bool,
        warnings: seq<ConfigWarning>)
    requires |raw.roles| >= raw.nPlayers
    ensures known <==> forall i | 0 <= i < raw.nPlayers :: raw.roles[i] in raw.archetypes
    ensures known ==>
              && (forall id: nat :: id in subjects <==> id < raw.nPlayers)
              && (forall id: nat | id < raw.nPlayers :: subjects[id] == raw.archetypes[raw.roles[id]])
              && (validInstructions <==> !LacksInstructions(raw, raw.nPlayers))
              && warnings == (if validInstructions then [] else [MustIgnoreInstructions])
  {
    known, subjects, validInstructions, warnings := true, map[], true, [];
    for i := 0 to raw.nPlayers
      invariant known && forall k | 0 <= k < i :: raw.roles[k] in raw.archetypes
      invariant forall id: nat :: id in subjects <==> id < i
      invariant forall id: nat | id < i :: subjects[id] == raw.archetypes[raw.roles[id]]
      invariant validInstructions <==> !LacksInstructions(raw, i)
      invariant warnings == if validInstructions then [] else [MustIgnoreInstructions]
    {
      var role := raw.roles[i];
      if role !in raw.archetypes {
        known := false;
        return;
      }
      var settings := raw.archetypes[role];
      assert LacksInstructions(raw, i + 1) <==> LacksInstructions(raw, i) || settings.instructions == Some("");
      if validInstructions {
        if settings.instructions == Some("") {
          validInstructions := false;
          warnings := warnings + [MustIgnoreInstructions];
        }
      }
      subjects := subjects[i := settings];
    }
  }

  /** What a loaded configuration says, in terms of the file. */
  ghost predicate Describes(raw: Raw, config: Configuration) {
    && Problem(raw).None?
    && config.nPlayers == raw.nPlayers && config.nRounds == raw.nRounds
    && config.roundTime == raw.roundSeconds && config.reviewTime == raw.reviewSeconds
    && config.firstCreateRound == raw.firstCreateRound && config.dividends == raw.dividends
    && config.replaceRule == raw.replaceRule && config.improvementRule == raw.improvementRule
    && |config.perConfigs| == raw.nRounds
    && (forall i | 0 <= i < raw.nRounds :: RoundEntry(raw, i, config.perConfigs[i]))
    && (forall id: nat :: id in config.subConfigs <==> id < raw.nPlayers)
    && (forall id: nat | id < raw.nPlayers :: config.subConfigs[id] == raw.archetypes[raw.roles[id]])
    && (config.validInstructions <==> !LacksInstructions(raw, raw.nPlayers))
  }

  /** A file is refused for its first problem, or loaded as what it describes, with a warning for each thing ignored. */
  method ReadConfiguration(raw: Raw) returns (res: Reading)
    ensures res.Failed? <==> Problem(raw).Some?
    ensures res.Failed? ==> Problem(raw) == Some(res.error)
    ensures res.Loaded? ==>
              && Describes(raw, res.config)
              && res.warnings
                 == SizeWarnings(raw) + (if res.config.validInstructions then [] else [MustIgnoreInstructions])
  {
    var error, warnings := CheckSizes(raw);
    if error.Some? {
      return Failed(error.value);
    }
    var valid := RealizationsValid(raw);
    if !valid {
      return Failed(InvalidDividendRealization);
    }
    var rounds := BuildRounds(raw);
    var known, subjects, validInstructions, more := AssignRoles(raw);
    if !known {
      return Failed(UnknownRole);
    }
    var config := Configuration(
      raw.nPlayers, raw.nRounds, validInstructions, raw.roundSeconds, raw.reviewSeconds, subjects, rounds,
      raw.firstCreateRound, raw.dividends, raw.replaceRule, raw.improvementRule);
    return Loaded(config, warnings + more);
  }

  /** Every round lookup of a loaded configuration finds the entry numbered for it, with a listed dividend. */
  lemma RoundLookup(raw: Raw, config: Configuration, round: nat)
    requires Describes(raw, config)
    ensures config.GetRoundConfiguration(round).Did? <==> 1 <= round <= config.nRounds
    ensures 1 <= round <= config.nRounds ==>
              var conf := config.GetRoundConfiguration(round).value;
              conf.round == round && conf.dividend in config.dividends
              && (conf.canCreate <==> round >= config.firstCreateRound)
  {
    if 1 <= round <= config.nRounds {
      assert RoundEntry(raw, round - 1, config.perConfigs[round - 1]);
    }
  }

  /** Once creation is allowed it stays allowed. */
  lemma CreationMonotone(raw: Raw, config: Configuration, i: nat, j: nat)
    requires Describes(raw, config) && i <= j < config.nRounds && config.perConfigs[i].canCreate
    ensures config.perConfigs[j].canCreate
  {
    assert RoundEntry(raw, i, config.perConfigs[i]) && RoundEntry(raw, j, config.perConfigs[j]);
  }

  /** A loaded configuration is fit to run exactly when it has a round at all. */
  lemma LoadedIsWellConfigured(raw: Raw, config: Configuration)
    requires Describes(raw, config)
    ensures WellConfigured(config) <==> config.nRounds >= 1
  {
    forall i | 0 <= i < config.nRounds
      ensures config.perConfigs[i].round == i + 1
    {
      assert RoundEntry(raw, i, config.perConfigs[i]);
    }
  }

  lemma FirstRound(w: World)
    requires Sound(w) && StartVerdict(w.state).Accepted?
    ensures w.state.desk.exp.round == 0
  {
  }

  lemma PlayersListed(raw: Raw, s: State)
    requires Describes(raw, s.desk.config) && StartVerdict(s).Accepted?
    ensures forall id: nat | id < |s.subjects| :: id in s.desk.config.subConfigs
  {
  }

  /** What an accepted start looks up. */
  lemma StartDidIff(s: State)
    requires StartVerdict(s).Accepted? && s.desk.exp.round == 0
    ensures StartExperiment(s).Did?
       <==> && (forall id: nat | id < |s.subjects| :: id in s.desk.config.subConfigs)
            && s.desk.config.GetRoundConfiguration(1).Did?
  {
    hide Allocate, SendOpening;
    var config, n := s.desk.config, |s.subjects|;
    AllocateFacts(config, s.desk.folios, n);
    if Allocate(config, s.desk.folios, n).Did? {
      OpeningIsPersonal(config, Allocate(config, s.desk.folios, n).value, n);
    }
  }

  /**
   * The start of an experiment from a loaded configuration throws exactly when
   * the configuration has no rounds; after it, an orderly run never fails a
   * lookup.
   */
  lemma StartThrowsIff(raw: Raw, w: World)
    requires Sound(w) && Describes(raw, w.state.desk.config) && StartVerdict(w.state).Accepted?
    ensures Handle(w, RequestStart).Threw? <==> w.state.desk.config.nRounds == 0
  {
    FirstRound(w);
    StartDidIff(w.state);
    hide StartExperiment, Sound, Describes, StartVerdict;
    RoundLookup(raw, w.state.desk.config, 1);
    PlayersListed(raw, w.state);
  }

  lemma LoadedRunsWithoutFailure(
      raw: Raw, ws: seq<World>, es: seq<Event>, k: nat, j: nat, e: Event)
    requires IsRun(ws, es) && k < j < |ws| && es[k].RequestStart? && StartVerdict(ws[k].state).Accepted?
    requires Describes(raw, ws[k].state.desk.config) && OrderlyBetween(ws, es, k, j)
    requires Possible(ws[j], e) && Orderly(ws[j].state, e)
    ensures Handle(ws[j], e).Did?
  {
    RunStep(ws, es, k);
    StartThrowsIff(raw, ws[k]);
    LoadedIsWellConfigured(raw, ws[k].state.desk.config);
    NoLookupFails(ws, es, k, j, e);
  }
}
