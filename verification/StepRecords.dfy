/**
 The records of single steps in a run state, and what a checkpoint keeps of them. Enumerations are written by
 their values; free values are JSON texts.
 */
module StepRecords {
  import opened Options

  datatype ThoughtType = REASONING | PLANNING | REFLECTION | OBSERVATION

  datatype ActionType = TOOL_CALL | SKILL_CALL | ANSWER | DELEGATE | WAIT

  type Metadata = map<string, string>

  datatype Thought = Thought(kind: ThoughtType, content: string, confidence: real, metadata: Metadata)

  datatype Action = Action(
    kind: ActionType,
    target: string,
    parameters: Metadata,
    reasoning: Option<string>,
    metadata: Metadata)

  datatype Observation = Observation(
    action: Option<Action>,
    result: string,
    success: bool,
    error: Option<string>,
    duration: real,
    metadata: Metadata)

  datatype StepRecord = StepRecord(
    number: nat,
    thought: Option<Thought>,
    action: Option<Action>,
    observation: Option<Observation>)

  datatype ThoughtDoc = ThoughtDoc(kind: string, content: string)

  datatype ActionDoc = ActionDoc(kind: string, target: string, parameters: Metadata)

  datatype ObservationDoc = ObservationDoc(result: string, success: bool, error: Option<string>, duration: real)

  datatype StepDoc = StepDoc(
    number: nat,
    thought: Option<ThoughtDoc>,
    action: Option<ActionDoc>,
    observation: Option<ObservationDoc>)

  // ---- Enumerations by value ----

  /** An enumeration looked up by value; None is Python's ValueError. */
  function Lookup<T>(members: seq<T>, value: T -> string, s: string): (r: Option<T>)
    ensures r.Some? ==> r.value in members && value(r.value) == s
    ensures r.None? ==> forall m :: m in members ==> value(m) != s
  {
    if members == [] then None
    else if value(members[0]) == s then Some(members[0])
    else Lookup(members[1..], value, s)
  }

  function ThoughtValue(t: ThoughtType): string {
    match t
    case REASONING => "reasoning"
    case PLANNING => "planning"
    case REFLECTION => "reflection"
    case OBSERVATION => "observation"
  }

  const THOUGHT_TYPES := [REASONING, PLANNING, REFLECTION, OBSERVATION]

  function ActionValue(a: ActionType): string {
    match a
    case TOOL_CALL => "tool_call"
    case SKILL_CALL => "skill_call"
    case ANSWER => "answer"
    case DELEGATE => "delegate"
    case WAIT => "wait"
  }

  const ACTION_TYPES := [TOOL_CALL, SKILL_CALL, ANSWER, DELEGATE, WAIT]

  /** An empty type reads as the default one. */
  function ReadThoughtType(s: string): Option<ThoughtType> {
    if s == "" then Some(REASONING) else Lookup(THOUGHT_TYPES, ThoughtValue, s)
  }

  function ReadActionType(s: string): Option<ActionType> {
    if s == "" then Some(TOOL_CALL) else Lookup(ACTION_TYPES, ActionValue, s)
  }

  lemma ThoughtRoundTrip(t: ThoughtType)
    ensures ReadThoughtType(ThoughtValue(t)) == Some(t)
  {
    var s := ThoughtValue(t);
    var found := Lookup(THOUGHT_TYPES, ThoughtValue, s);
    assert t in THOUGHT_TYPES by {
      assert THOUGHT_TYPES[0] == REASONING && THOUGHT_TYPES[1] == PLANNING;
      assert THOUGHT_TYPES[2] == REFLECTION && THOUGHT_TYPES[3] == OBSERVATION;
    }
    if found.Some? {
      assert ThoughtValue(found.value)[0] == s[0] && |ThoughtValue(found.value)| == |s|;
      assert ThoughtValue(found.value)[2] == s[2];
    }
  }

  lemma ActionRoundTrip(a: ActionType)
    ensures ReadActionType(ActionValue(a)) == Some(a)
  {
    var s := ActionValue(a);
    var found := Lookup(ACTION_TYPES, ActionValue, s);
    assert a in ACTION_TYPES by {
      assert ACTION_TYPES[0] == TOOL_CALL && ACTION_TYPES[1] == SKILL_CALL && ACTION_TYPES[2] == ANSWER;
      assert ACTION_TYPES[3] == DELEGATE && ACTION_TYPES[4] == WAIT;
    }
    if found.Some? {
      assert ActionValue(found.value)[0] == s[0];
    }
  }

  // ---- Writing and reading one record ----

  function WriteStep(r: StepRecord): StepDoc {
    StepDoc(r.number,
            if r.thought.None? then None
            else Some(ThoughtDoc(ThoughtValue(r.thought.value.kind), r.thought.value.content)),
            if r.action.None? then None
            else
              var a := r.action.value;
              Some(ActionDoc(ActionValue(a.kind), a.target, a.parameters)),
            if r.observation.None? then None
            else
              var o := r.observation.value;
              Some(ObservationDoc(o.result, o.success, o.error, o.duration)))
  }

  predicate StepReadable(d: StepDoc) {
    && (d.thought.Some? ==> ReadThoughtType(d.thought.value.kind).Some?)
    && (d.action.Some? ==> ReadActionType(d.action.value.kind).Some?)
  }

  function ReadThought(d: Option<ThoughtDoc>): Option<Thought>
    requires d.Some? ==> ReadThoughtType(d.value.kind).Some?
  {
    if d.None? then None else Some(Thought(ReadThoughtType(d.value.kind).value, d.value.content, 1.0, map[]))
  }

  function ReadAction(d: Option<ActionDoc>): Option<Action>
    requires d.Some? ==> ReadActionType(d.value.kind).Some?
  {
    if d.None? then None
    else Some(Action(ReadActionType(d.value.kind).value, d.value.target, d.value.parameters, None, map[]))
  }

  /** The observation gets the action of its step. */
  function ReadStep(d: StepDoc): StepRecord
    requires StepReadable(d)
  {
    var action := ReadAction(d.action);
    StepRecord(d.number, ReadThought(d.thought), action,
               if d.observation.None? then None
               else
                 var o := d.observation.value;
                 Some(Observation(action, o.result, o.success, o.error, o.duration, map[])))
  }

  /** What the written form has no place for: confidence, reasoning, metadata, and an observed action other than
      the step's own. */
  predicate NothingExtra(r: StepRecord) {
    && (r.thought.Some? ==> r.thought.value.confidence == 1.0 && r.thought.value.metadata == map[])
    && (r.action.Some? ==> r.action.value.reasoning.None? && r.action.value.metadata == map[])
    && (r.observation.Some? ==> r.observation.value.action == r.action && r.observation.value.metadata == map[])
  }

  /** A written record can be read, and reads back as itself if and only if it has nothing extra; written again,
      it always gives the same form. */
  lemma StepRoundTrip(r: StepRecord)
    ensures StepReadable(WriteStep(r))
    ensures ReadStep(WriteStep(r)) == r <==> NothingExtra(r)
    ensures WriteStep(ReadStep(WriteStep(r))) == WriteStep(r)
  {
    if r.thought.Some? {
      ThoughtRoundTrip(r.thought.value.kind);
    }
    if r.action.Some? {
      ActionRoundTrip(r.action.value.kind);
    }
  }
}
