/** The six control actions, the intents behind them, and the assessment that flows through a tick. */
module Actions {
  datatype Action = Hold | Decrease10 | Decrease30 | Increase10 | Increase30 | EmergencyExit

  datatype ResponseMode = AllowGrowth | HoldSteady | FreezeSpot | ReduceGradual | ReduceFast | EmergencyMode

  /** How strongly an action pulls away from Spot, from INCREASE_30 up to EMERGENCY_EXIT. */
  function Severity(a: Action): nat {
    match a
    case Increase30 => 0
    case Increase10 => 1
    case Hold => 2
    case Decrease10 => 3
    case Decrease30 => 4
    case EmergencyExit => 5
  }

  predicate IsIncrease(a: Action) {
    a.Increase10? || a.Increase30?
  }

  predicate IsReduction(a: Action) {
    a.Decrease10? || a.Decrease30? || a.EmergencyExit?
  }

  datatype Assessment = Assessment(
    node: string, action: Action, capacityScore: real, confidence: real, utilization: real, mode: ResponseMode)
}
