/** The step log a stage keeps (the event logger's fake stage): each step is opened
    in state Started and closed once, as Finished or as Failed with the error's message. */
module EventLog {
  import opened Common

  datatype EventState = Started | Finished | Failed | Skipped

  datatype Step = Step(name: string, states: seq<EventState>, failMessage: string)

  /** A step whose operation returned nil. */
  function FinishedStep(name: string): Step
  {
    Step(name, [Started, Finished], "")
  }

  /** A step whose operation returned an error with message `message`. */
  function FailedStep(name: string, message: string): Step
  {
    Step(name, [Started, Failed], message)
  }

  /** The step a completed operation leaves behind, given the error it returned. */
  function StepFor(name: string, err: Option<string>): Step
  {
    if err.None? then FinishedStep(name) else FailedStep(name, err.value)
  }

  predicate IsOpen(s: Step)
  {
    s.states == [Started] && s.failMessage == ""
  }

  /** The fake stage: the steps in the order they were opened. */
  class Stage {
    var steps: seq<Step>

    constructor ()
      ensures steps == []
    {
      steps := [];
    }

    /** Opens a new step at the end of the log. */
    method Start(name: string)
      modifies this
      ensures steps == old(steps) + [Step(name, [Started], "")]
    {
      steps := steps + [Step(name, [Started], "")];
    }

    /** Closes the step opened last as Finished; earlier steps are untouched. */
    method Finish()
      requires |steps| > 0 && IsOpen(steps[|steps| - 1])
      modifies this
      ensures steps == old(steps[..|steps| - 1]) + [FinishedStep(old(steps[|steps| - 1].name))]
    {
      var last := steps[|steps| - 1];
      assert last.states + [Finished] == [Started, Finished];
      steps := steps[..|steps| - 1] + [Step(last.name, last.states + [Finished], "")];
    }

    /** Closes the step opened last as Failed with `message`; earlier steps are untouched. */
    method Fail(message: string)
      requires |steps| > 0 && IsOpen(steps[|steps| - 1])
      modifies this
      ensures steps == old(steps[..|steps| - 1]) + [FailedStep(old(steps[|steps| - 1].name), message)]
    {
      var last := steps[|steps| - 1];
      assert last.states + [Failed] == [Started, Failed];
      steps := steps[..|steps| - 1] + [Step(last.name, last.states + [Failed], message)];
    }

    /** Closes the step opened last according to the error its operation returned. */
    method End(err: Option<string>)
      requires |steps| > 0 && IsOpen(steps[|steps| - 1])
      modifies this
      ensures steps == old(steps[..|steps| - 1]) + [StepFor(old(steps[|steps| - 1].name), err)]
    {
      if err.None? {
        Finish();
      } else {
        Fail(err.value);
      }
    }
  }
}
