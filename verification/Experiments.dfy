/** Configuration data and the state shared by every processor. */
module Experiments {
  import opened Values
  import opened Portfolios

  datatype SubjectConfiguration = SubjectConfiguration(
    isCreator: bool,
    instructions: Option<string>,
    ePerDollar: real,
    initAlloc: Folio)

  datatype RoundConfiguration = RoundConfiguration(
    canCreate: bool,
    round: nat,
    dividend: nat,
    marginReq: nat,
    marginMax: nat)

  /** Durations are in seconds. */
  datatype Configuration = Configuration(
    nPlayers: nat,
    nRounds: nat,
    validInstructions: bool,
    roundTime: int,
    reviewTime: int,
    subConfigs: map<nat, SubjectConfiguration>,
    perConfigs: seq<RoundConfiguration>,
    firstCreateRound: nat,
    dividends: seq<nat>,
    replaceRule: bool,
    improvementRule: bool)
  {
    /** `at`: throws for an unknown subject. */
    function GetSubjectConfiguration(id: nat): Attempt<SubjectConfiguration> {
      if id in subConfigs then Did(subConfigs[id]) else Threw
    }

    /** Rounds count from 1; an index outside the vector is a failed lookup. */
    function GetRoundConfiguration(round: nat): Attempt<RoundConfiguration> {
      if 1 <= round <= |perConfigs| then Did(perConfigs[round - 1]) else Threw
    }
  }

  datatype Status = NotStarted | Running | Paused | Ended

  datatype Stage = PreExperiment | Instructions | Round | Dividends | Review | Payouts | End

  datatype ExperimentState = ExperimentState(round: nat, status: Status, stage: Stage) {
    predicate IsMarketOpen() {
      status == Running && stage == Round
    }
  }

  datatype Subject = Subject(id: nat, name: string)

  // ---- Results of reading a configuration file ------------------------------

  datatype ConfigError =
    | FileDoesNotExist
    | InvalidFormat
    | MissingValue
    | TooFewRoleAssignments
    | UnknownRole
    | InvalidDividendRealization
    | TooFewDividendRealizations
    | TooFewMarginRequirements

  datatype ConfigWarning =
    | UnusedRoles
    | TooManyRoleAssignments
    | MustIgnoreInstructions
    | TooManyDividendRealizations
    | TooManyMarginRequirements

  datatype Reading =
    | Loaded(config: Configuration, warnings: seq<ConfigWarning>)
    | Failed(error: ConfigError)

  /** What the administrators are told of a reading. */
  datatype ConfigResult = ConfigResult(error: Option<ConfigError>, warnings: seq<ConfigWarning>)

  function ResultOfReading(read: Reading): ConfigResult {
    match read
    case Loaded(_, warnings) => ConfigResult(None, warnings)
    case Failed(error) => ConfigResult(Some(error), [])
  }
}
