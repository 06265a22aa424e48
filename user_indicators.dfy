/**
 * The user-indicator controller that the waitlist coordinator talks to, as far
 * as the coordinator uses it: indicators are submitted and retracted by id.
 * The controller's presentation, timers and queueing are not part of this
 * model; its state is the set of ids currently shown plus a log of every call.
 */
module UserIndicators {
  import opened Wrappers
  import opened Localization

  datatype UserIndicatorType = Modal | Toast

  datatype UserIndicator = UserIndicator(
    id: string,
    indicatorType: UserIndicatorType,
    title: Text,
    persistent: bool,
    iconName: Option<string>)

  /** One call made on the controller. */
  datatype ControllerCall = Submitted(indicator: UserIndicator) | Retracted(id: string)

  /** The controller's observable state as a value. */
  datatype IndicatorState = IndicatorState(active: set<string>, log: seq<ControllerCall>)

  /** `submitIndicator`: the indicator becomes active and the call is logged. */
  function Submit(s: IndicatorState, indicator: UserIndicator): (r: IndicatorState)
    ensures indicator.id in r.active && r.active - {indicator.id} == s.active - {indicator.id}
    ensures r.log == s.log + [Submitted(indicator)]
  {
    IndicatorState(s.active + {indicator.id}, s.log + [Submitted(indicator)])
  }

  /** `retractIndicatorWithId`: the id is no longer active and the call is logged. */
  function Retract(s: IndicatorState, id: string): (r: IndicatorState)
    ensures id !in r.active && r.active + {id} == s.active + {id}
    ensures r.log == s.log + [Retracted(id)]
  {
    IndicatorState(s.active - {id}, s.log + [Retracted(id)])
  }

  class UserIndicatorController {
    var active: set<string>
    var log: seq<ControllerCall>

    function State(): IndicatorState
      reads this
    {
      IndicatorState(active, log)
    }

    constructor ()
      ensures active == {} && log == []
    {
      active, log := {}, [];
    }

    method SubmitIndicator(indicator: UserIndicator)
      modifies this
      ensures State() == Submit(old(State()), indicator)
    {
      active := active + {indicator.id};
      log := log + [Submitted(indicator)];
    }

    method RetractIndicatorWithId(id: string)
      modifies this
      ensures State() == Retract(old(State()), id)
    {
      active := active - {id};
      log := log + [Retracted(id)];
    }
  }
}
