/**
  The agent runners of mABC/agents/base/run.py: the parser of a ReAct reply, the
  bounded reasoning loop of one ReAct step, the parsers of poll and vote replies, and
  the weighted vote of `ThreeHotCotRun`.

  The model's replies and the tool's output are inputs: the LLM call, the prompt
  assembly, `act_eval` and the history summarising are not modelled.
*/
module AgentRun {
  import opened Wrappers
  import opened PyStr

  // ---------------------------------------------------------------------
  // parse

  /** `REACT_STATUS_RE`, `REACT_STATUS_ACT`, `REACT_STATUS_FINISH`. */
  datatype Status = Reason | Act | Finish

  /** The dictionary `parse` returns; `None` for a field it leaves unset. */
  datatype ReactResult = ReactResult(
    status: Status,
    thought: Option<string>,
    finalAnswer: Option<string>,
    actionToolName: Option<string>,
    actionToolInput: Option<string>)

  const ThoughtMarker := "Thought:"
  const ActionMarker := "Action"
  const FinalMarker := "Final Answer:"
  const NameMarker := "Action Tool Name:"
  const InputMarker := "Action Tool Input:"
  const ObservationMarker := "Observation:"

  /** Free of surrounding whitespace, as `str.strip()` leaves a string. */
  predicate Trimmed(s: string) {
    s != [] ==> !IsSpace(s[0]) && !IsSpace(s[|s| - 1])
  }

  /** The thought: present exactly when "Thought:" occurs; it is the text after the
      first "Thought:", cut at the first "Action" and at the first "Final Answer:",
      so it holds none of the three markers and is stripped. */
  function ParseThought(answer: string): (r: Option<string>)
    ensures r.Some? <==> Contains(answer, ThoughtMarker)
    ensures r.Some? ==> Trimmed(r.value)
    ensures r.Some? ==> !Contains(r.value, ThoughtMarker) && !Contains(r.value, ActionMarker) && !Contains(r.value, FinalMarker)
  {
    if Contains(answer, ThoughtMarker) then
      var piece := Piece1(answer, ThoughtMarker);
      var cut := Before(piece, ActionMarker);
      var thought := Before(cut, FinalMarker);
      BeforeLacksSep(After(answer, ThoughtMarker), ThoughtMarker);
      BeforeLacksSep(piece, ActionMarker);
      BeforeLacksSep(cut, FinalMarker);
      BeforeKeepsLacking(piece, ActionMarker, ThoughtMarker);
      BeforeKeepsLacking(cut, FinalMarker, ThoughtMarker);
      BeforeKeepsLacking(cut, FinalMarker, ActionMarker);
      StripLacks(thought, ThoughtMarker);
      StripLacks(thought, ActionMarker);
      StripLacks(thought, FinalMarker);
      Some(Strip(thought))
    else None
  }

  /** `parse`: "Final Answer:" wins over the action markers, which are only read when
      both occur; with neither the reply asks for more reasoning. */
  function Parse(answer: string): (r: ReactResult)
    ensures r.thought == ParseThought(answer)
    ensures r.status == Finish <==> Contains(answer, FinalMarker)
    ensures r.status == Act <==> !Contains(answer, FinalMarker) && Contains(answer, NameMarker) && Contains(answer, InputMarker)
    ensures r.finalAnswer.Some? <==> r.status == Finish
    ensures r.actionToolName.Some? <==> r.status == Act
    ensures r.actionToolInput.Some? <==> r.status == Act
  {
    var thought := ParseThought(answer);
    if Contains(answer, FinalMarker) then
      ReactResult(Finish, thought, Some(Strip(Piece1(answer, FinalMarker))), None, None)
    else if Contains(answer, NameMarker) && Contains(answer, InputMarker) then
      var name := Strip(Before(Piece1(answer, NameMarker), InputMarker));
      var input := Strip(Before(Piece1(answer, InputMarker), ObservationMarker));
      ReactResult(Act, thought, None, Some(name), Some(input))
    else
      ReactResult(Reason, thought, None, None, None)
  }

  /** The fields `parse` extracts are stripped and cut where the source says: the
      final answer holds no further "Final Answer:", the tool name no
      "Action Tool Name:" and no "Action Tool Input:", and the tool input no
      "Action Tool Input:" and no "Observation:". */
  lemma {:induction false} ParseFieldsClean(answer: string)
    ensures var r := Parse(answer);
      && (r.finalAnswer.Some? ==> Trimmed(r.finalAnswer.value) && !Contains(r.finalAnswer.value, FinalMarker))
      && (r.actionToolName.Some? ==>
            Trimmed(r.actionToolName.value)
            && !Contains(r.actionToolName.value, NameMarker) && !Contains(r.actionToolName.value, InputMarker))
      && (r.actionToolInput.Some? ==>
            Trimmed(r.actionToolInput.value)
            && !Contains(r.actionToolInput.value, InputMarker) && !Contains(r.actionToolInput.value, ObservationMarker))
  {
    if Contains(answer, FinalMarker) {
      BeforeLacksSep(After(answer, FinalMarker), FinalMarker);
      StripLacks(Piece1(answer, FinalMarker), FinalMarker);
    } else if Contains(answer, NameMarker) && Contains(answer, InputMarker) {
      var namePiece := Piece1(answer, NameMarker);
      BeforeLacksSep(After(answer, NameMarker), NameMarker);
      BeforeLacksSep(namePiece, InputMarker);
      BeforeKeepsLacking(namePiece, InputMarker, NameMarker);
      StripLacks(Before(namePiece, InputMarker), NameMarker);
      StripLacks(Before(namePiece, InputMarker), InputMarker);
      var inputPiece := Piece1(answer, InputMarker);
      BeforeLacksSep(After(answer, InputMarker), InputMarker);
      BeforeLacksSep(inputPiece, ObservationMarker);
      BeforeKeepsLacking(inputPiece, ObservationMarker, InputMarker);
      StripLacks(Before(inputPiece, ObservationMarker), InputMarker);
      StripLacks(Before(inputPiece, ObservationMarker), ObservationMarker);
    }
  }

  /** Whatever `parse` extracts is text of the reply. */
  lemma {:induction false} ParseFieldsOccur(answer: string)
    ensures var r := Parse(answer);
      && (r.thought.Some? ==> Contains(answer, r.thought.value))
      && (r.finalAnswer.Some? ==> Contains(answer, r.finalAnswer.value))
      && (r.actionToolName.Some? ==> Contains(answer, r.actionToolName.value))
      && (r.actionToolInput.Some? ==> Contains(answer, r.actionToolInput.value))
  {
    var r := Parse(answer);
    if r.thought.Some? {
      var piece := Piece1(answer, ThoughtMarker);
      var cut := Before(Before(piece, ActionMarker), FinalMarker);
      StripOccurs(cut);
      ContainsBefore(Before(piece, ActionMarker), FinalMarker, r.thought.value);
      ContainsBefore(piece, ActionMarker, r.thought.value);
      ContainsPiece1(answer, ThoughtMarker, r.thought.value);
    }
    if r.finalAnswer.Some? {
      StripOccurs(Piece1(answer, FinalMarker));
      ContainsPiece1(answer, FinalMarker, r.finalAnswer.value);
    }
    if r.actionToolName.Some? {
      var piece := Piece1(answer, NameMarker);
      StripOccurs(Before(piece, InputMarker));
      ContainsBefore(piece, InputMarker, r.actionToolName.value);
      ContainsPiece1(answer, NameMarker, r.actionToolName.value);
    }
    if r.actionToolInput.Some? {
      var piece := Piece1(answer, InputMarker);
      StripOccurs(Before(piece, ObservationMarker));
      ContainsBefore(piece, ObservationMarker, r.actionToolInput.value);
      ContainsPiece1(answer, InputMarker, r.actionToolInput.value);
    }
  }


  // ---------------------------------------------------------------------
  // run_one_step

  /** The answer recorded when the reasoning budget runs out. */
  const ForcedAnswer := "Unable to determine root cause after multiple reasoning steps."
  /** The answer recorded when the same action repeats without result. */
  const RepeatedAnswer := "Unable to determine root cause - repeated queries returned no data. The required endpoint data is not available."
  /** The answer recorded when the tool keeps reporting no data. */
  const NoDataAnswer := "Unable to determine root cause - the endpoint has no data at the specified time. Please verify the endpoint name or time period."
  const NoDataFlag := "[NO_DATA]"

  /** How an f-string renders an optional text: `None` for a missing value. */
  function Shown(t: Option<string>): string {
    if t.Some? then t.value else "None"
  }

  /** The reasoning budget: 15 calls for a "Process Scheduler" role, 5 otherwise. */
  function MaxReasonLoops(roleName: string): (n: nat)
    ensures n == (if Contains(roleName, "Process Scheduler") then 15 else 5)
  {
    if Contains(roleName, "Process Scheduler") then 15 else 5
  }

  function ThoughtLine(thought: Option<string>): string {
    "\nThought: " + Shown(thought)
  }

  function FinalLine(answer: string): string {
    "\nFinal Answer: " + answer
  }

  /** `f` applied to each element, in order. */
  function Mapped<A, B>(xs: seq<A>, f: A -> B): (r: seq<B>)
    ensures |r| == |xs|
  {
    if xs == [] then [] else Mapped(xs[..|xs| - 1], f) + [f(xs[|xs| - 1])]
  }

  lemma {:induction false} MappedAt<A, B>(xs: seq<A>, f: A -> B, k: nat)
    requires k < |xs|
    ensures Mapped(xs, f)[k] == f(xs[k])
    decreases |xs|
  {
    if k < |xs| - 1 {
      MappedAt(xs[..|xs| - 1], f, k);
      assert xs[..|xs| - 1][k] == xs[k];
    }
  }

  lemma {:induction false} MappedAppend<A, B>(xs: seq<A>, ys: seq<A>, f: A -> B)
    ensures Mapped(xs + ys, f) == Mapped(xs, f) + Mapped(ys, f)
    decreases |ys|
  {
    if ys != [] {
      var init := ys[..|ys| - 1];
      MappedAppend(xs, init, f);
      assert (xs + ys)[..|xs + ys| - 1] == xs + init;
      assert (xs + ys)[|xs + ys| - 1] == ys[|ys| - 1];
    } else {
      assert xs + ys == xs;
    }
  }

  /** The model's replies, parsed one by one. */
  function ParsedAll(replies: seq<string>): (r: seq<ReactResult>)
    ensures |r| == |replies|
  {
    Mapped(replies, Parse)
  }

  lemma {:induction false} ParsedAt(replies: seq<string>, k: nat)
    requires k < |replies|
    ensures ParsedAll(replies)[k] == Parse(replies[k])
  {
    MappedAt(replies, Parse, k);
  }

  lemma {:induction false} ParsedAllAppend(replies: seq<string>, more: seq<string>)
    ensures ParsedAll(replies + more) == ParsedAll(replies) + ParsedAll(more)
  {
    MappedAppend(replies, more, Parse);
  }

  /** How the reasoning loop ends: out of budget, or on the first reply that is not
      plain reasoning, with the step record written so far. */
  datatype Reasoning = Forced(record: string) | Decided(result: ReactResult, record: string)

  /** The `while status == REACT_STATUS_RE` loop of `run_one_step`, from its
      `count`-th call on, with the `record` written so far; `results[k]` is the parse
      of the model's reply to the `k`-th call. */
  function ReasonLoop(results: seq<ReactResult>, max: nat, count: nat, record: string): Reasoning
    requires count <= max <= |results|
    decreases max - count
  {
    if count == max then Forced(record + FinalLine(ForcedAnswer))
    else
      var result := results[count];
      var next := record + ThoughtLine(result.thought);
      if result.status == Reason then ReasonLoop(results, max, count + 1, next)
      else Decided(result, next)
  }

  /** The step record after an action: the tool's name and input, then what the tool
      returned for the call `name(input)`. */
  function ActionRecord(record: string, name: string, input: string, observation: string): string {
    record + "\nAction Tool Name: " + name + "\nAction Tool Input: " + input
      + "\nObservation: the result of " + (name + "(" + input + ")") + " is " + observation
  }

  /** `run_one_step`: the status it returns and the step record it writes, given the
      model's replies and the tool's output for the action, if one is taken. */
  function OneStep(roleName: string, replies: seq<string>, observation: string): (Status, string)
    requires MaxReasonLoops(roleName) <= |replies|
  {
    match ReasonLoop(ParsedAll(replies), MaxReasonLoops(roleName), 0, "")
    case Forced(record) => (Finish, record)
    case Decided(result, record) =>
      if result.status == Act then
        (Reason, ActionRecord(record, Shown(result.actionToolName), Shown(result.actionToolInput), observation))
      else
        (Finish, record + FinalLine(Shown(result.finalAnswer)))
  }

  /** `run_one_step`. The guards against a repeated action and against repeated
      "no data" results are kept as written; both counters start afresh on every call
      and the loop takes at most one action, so neither guard can fire. */
  method RunOneStep(roleName: string, replies: seq<string>, observation: string) returns (status: Status, record: string)
    requires MaxReasonLoops(roleName) <= |replies|
    ensures (status, record) == OneStep(roleName, replies, observation)
  {
    status := Reason;
    record := "";
    var count := 0;
    var consecutiveNoData := 0;
    var previousAction: Option<string> := None;
    var max := MaxReasonLoops(roleName);
    var result := ReactResult(Reason, None, None, None, None);
    ghost var results := ParsedAll(replies);
    while status == Reason
      invariant count <= max
      invariant status == Reason ==> ReasonLoop(results, max, count, record) == ReasonLoop(results, max, 0, "")
      invariant status != Reason ==> ReasonLoop(results, max, 0, "") == Decided(result, record) && status == result.status
      decreases max - count
    {
      count := count + 1;
      if count > max {
        record := record + FinalLine(ForcedAnswer);
        return Finish, record;
      }
      result := Parse(replies[count - 1]);
      ParsedAt(replies, count - 1);
      status := result.status;
      record := record + ThoughtLine(result.thought);
    }
    if status == Act {
      var name := Shown(result.actionToolName);
      var input := Shown(result.actionToolInput);
      record := record + "\nAction Tool Name: " + name;
      record := record + "\nAction Tool Input: " + input;
      var action := name + "(" + input + ")";
      if previousAction == Some(action) {
        consecutiveNoData := consecutiveNoData + 1;
        if consecutiveNoData >= 3 {
          record := record + FinalLine(RepeatedAnswer);
          return Finish, record;
        }
      } else {
        consecutiveNoData := 0;
      }
      previousAction := Some(action);
      // `act` hands the tool's output back and returns to reasoning.
      status := Reason;
      if Contains(observation, NoDataFlag) {
        consecutiveNoData := consecutiveNoData + 1;
        if consecutiveNoData >= 3 {
          record := record + FinalLine(NoDataAnswer);
          return Finish, record;
        }
      } else {
        consecutiveNoData := 0;
      }
      record := record + "\nObservation: the result of " + action + " is " + observation;
    } else if status == Finish {
      record := record + FinalLine(Shown(result.finalAnswer));
    }
  }

  /** The loop ends out of budget exactly when every reply up to the budget is plain
      reasoning; otherwise it ends on the first reply that is not, within the budget. */
  lemma {:induction false} ReasonLoopOutcome(results: seq<ReactResult>, max: nat, count: nat, record: string)
    requires count <= max <= |results|
    ensures ReasonLoop(results, max, count, record).Forced? <==>
      forall k :: count <= k < max ==> results[k].status == Reason
    ensures ReasonLoop(results, max, count, record).Decided? ==>
      exists k :: count <= k < max && ReasonLoop(results, max, count, record).result == results[k]
        && results[k].status != Reason
        && forall j :: count <= j < k ==> results[j].status == Reason
    decreases max - count
  {
    if count < max && results[count].status == Reason {
      ReasonLoopOutcome(results, max, count + 1, record + ThoughtLine(results[count].thought));
    }
  }

  /** Results past the budget are never looked at. */
  lemma {:induction false} ReasonLoopReadsBudget(results: seq<ReactResult>, more: seq<ReactResult>, max: nat, count: nat, record: string)
    requires count <= max <= |results|
    ensures ReasonLoop(results + more, max, count, record) == ReasonLoop(results, max, count, record)
    decreases max - count
  {
    if count < max {
      assert (results + more)[count] == results[count];
      if results[count].status == Reason {
        ReasonLoopReadsBudget(results, more, max, count + 1, record + ThoughtLine(results[count].thought));
      }
    }
  }

  /** The model is called at most `max_reason_loops` times: replies past the budget
      never change the step. */
  lemma {:induction false} OneStepReadsBudget(roleName: string, replies: seq<string>, more: seq<string>, observation: string)
    requires MaxReasonLoops(roleName) <= |replies|
    ensures OneStep(roleName, replies + more, observation) == OneStep(roleName, replies, observation)
  {
    var max := MaxReasonLoops(roleName);
    ParsedAllAppend(replies, more);
    ReasonLoopReadsBudget(ParsedAll(replies), ParsedAll(more), max, 0, "");
    assert ReasonLoop(ParsedAll(replies + more), max, 0, "") == ReasonLoop(ParsedAll(replies), max, 0, "");
  }

  /** Every result up to the budget is plain reasoning, or the first that is not is
      a final answer. */
  predicate EndsInFinish(results: seq<ReactResult>, max: nat)
    requires max <= |results|
  {
    (forall k :: 0 <= k < max ==> results[k].status == Reason)
    || (exists k :: 0 <= k < max && results[k].status == Finish
          && forall j :: 0 <= j < k ==> results[j].status == Reason)
  }

  /** The loop ends out of budget or on a final answer exactly when the results end
      in a final answer. */
  lemma {:induction false} LoopFinishes(results: seq<ReactResult>, max: nat)
    requires max <= |results|
    ensures var loop := ReasonLoop(results, max, 0, "");
      loop.Decided? ==> loop.result.status != Reason
    ensures var loop := ReasonLoop(results, max, 0, "");
      loop.Forced? || loop.result.status == Finish <==> EndsInFinish(results, max)
  {
    ReasonLoopOutcome(results, max, 0, "");
    var loop := ReasonLoop(results, max, 0, "");
    if loop.Decided? {
      var k :| 0 <= k < max && loop.result == results[k] && results[k].status != Reason
        && forall j :: 0 <= j < k ==> results[j].status == Reason;
      forall k' | 0 <= k' < max && results[k'].status == Finish
          && (forall j :: 0 <= j < k' ==> results[j].status == Reason)
        ensures k' == k
      {
      }
    }
  }

  /** One step never ends in the action state: an action returns to reasoning, and
      the step finishes exactly when the budget runs out or the first reply that is
      not plain reasoning gives a final answer. */
  lemma {:induction false} OneStepStatus(roleName: string, replies: seq<string>, observation: string)
    requires MaxReasonLoops(roleName) <= |replies|
    ensures OneStep(roleName, replies, observation).0 != Act
    ensures OneStep(roleName, replies, observation).0 == Finish <==>
      EndsInFinish(ParsedAll(replies), MaxReasonLoops(roleName))
  {
    var max := MaxReasonLoops(roleName);
    var results := ParsedAll(replies);
    LoopFinishes(results, max);
    var loop := ReasonLoop(results, max, 0, "");
    assert OneStep(roleName, replies, observation).0 ==
      if loop.Forced? || loop.result.status == Finish then Finish else Reason;
  }

  // ---------------------------------------------------------------------
  // parse_in_poll and parse_in_vote

  const PollMarker := "Poll:"
  const ReasonMarker := "Reason:"
  const OptionMarker := "Option:"

  /** The dictionary `parse_in_poll` returns. */
  datatype PollResult = PollResult(poll: Option<string>, reason: Option<string>)

  predicate YesOrNo(poll: Option<string>) {
    poll == Some("Yes") || poll == Some("No")
  }

  predicate IsVoteOption(option: string) {
    option == "For" || option == "Against" || option == "Abstain"
  }

  /** The reply's own poll and reason: the rest of the line after the first "Poll:",
      and the text between the first and the second "Reason:", both stripped; `None`
      for both unless the two markers occur. */
  function ExtractedPoll(answer: string): (r: PollResult)
    ensures r.poll.Some? <==> Contains(answer, PollMarker) && Contains(answer, ReasonMarker)
    ensures r.poll.Some? ==> !Contains(r.poll.value, "\n") && Trimmed(r.poll.value) && Contains(answer, r.poll.value)
    ensures r.reason.Some? <==> r.poll.Some?
  {
    if Contains(answer, PollMarker) && Contains(answer, ReasonMarker) then
      PollResult(Some(LineAfter(answer, PollMarker, "\n")), Some(Strip(Piece1(answer, ReasonMarker))))
    else PollResult(None, None)
  }

  /** `parse_in_poll`: an extracted value other than "Yes" or "No" is replaced by
      "Yes" when that occurs anywhere in the reply, else by "No" when that does, and
      kept otherwise. */
  function ParseInPoll(answer: string): (r: PollResult)
    ensures r.reason == ExtractedPoll(answer).reason
    ensures Contains(answer, "Yes") || Contains(answer, "No") ==> YesOrNo(r.poll)
    ensures !YesOrNo(r.poll) ==> r == ExtractedPoll(answer)
  {
    var extracted := ExtractedPoll(answer);
    if YesOrNo(extracted.poll) then extracted
    else if Contains(answer, "Yes") then extracted.(poll := Some("Yes"))
    else if Contains(answer, "No") then extracted.(poll := Some("No"))
    else extracted
  }

  /** The poll value is always text of the reply; in particular a "Yes" poll means
      "Yes" occurs in it, and "No" wins only when "Yes" is absent or is what the
      "Poll:" line says otherwise. */
  lemma {:induction false} PollValueOccurs(answer: string)
    ensures var r := ParseInPoll(answer);
      && (r.poll.Some? ==> Contains(answer, r.poll.value))
      && (r.poll == Some("No") && !YesOrNo(ExtractedPoll(answer).poll) ==> !Contains(answer, "Yes"))
  {
  }

  /** The option the reply states itself: the rest of the line after the first
      "Option:", stripped, read only when "Option: " with its space occurs. */
  function ExtractedVote(answer: string): (r: Option<string>)
    ensures r.Some? <==> Contains(answer, "Option: ")
    ensures r.Some? ==> !Contains(r.value, "\n") && Trimmed(r.value) && Contains(answer, r.value)
  {
    if Contains(answer, "Option: ") then
      ContainsPatternPrefix(answer, "Option: ", 7);
      assert "Option: "[..7] == OptionMarker;
      Some(LineAfter(answer, OptionMarker, "\n"))
    else None
  }

  /** `parse_in_vote`: an extracted value other than the three options is replaced by
      the first of "For", "Against", "Abstain" that occurs in the reply, and kept
      (possibly `None`) when none does. */
  function ParseInVote(answer: string): (r: Option<string>)
    ensures Contains(answer, "For") || Contains(answer, "Against") || Contains(answer, "Abstain") ==>
      r.Some? && IsVoteOption(r.value)
    ensures r.None? ==> !Contains(answer, "Option: ")
  {
    var extracted := ExtractedVote(answer);
    if extracted.Some? && IsVoteOption(extracted.value) then extracted
    else if Contains(answer, "For") then Some("For")
    else if Contains(answer, "Against") then Some("Against")
    else if Contains(answer, "Abstain") then Some("Abstain")
    else extracted
  }

  /** The vote is always text of the reply, and the fallback follows its order: an
      "Against" or "Abstain" replacing an unreadable option means no "For" occurs. */
  lemma {:induction false} VoteValueOccurs(answer: string)
    ensures var r := ParseInVote(answer);
      && (r.Some? ==> Contains(answer, r.value))
      && (r.Some? && r != ExtractedVote(answer) && r.value != "For" ==> !Contains(answer, "For"))
      && (r == Some("Abstain") && r != ExtractedVote(answer) ==> !Contains(answer, "Against"))
  {
  }

  // ---------------------------------------------------------------------
  // ThreeHotCotRun.run

  /** An agent taking part in the weighted vote, with its replies to the poll prompt
      and to the vote prompt. */
  datatype Voter = Voter(roleName: string, weight: real, pollAnswer: string, voteAnswer: string)

  /** Whether the agent's poll reply reads "Yes". */
  predicate CallsVote(agent: Voter) {
    ParseInPoll(agent.pollAnswer).poll == Some("Yes")
  }

  /** The index of the first element that `called` accepts. */
  function FirstCalled<T>(xs: seq<T>, called: T -> bool): (r: Option<nat>)
    ensures r.Some? ==> r.value < |xs| && called(xs[r.value])
    ensures r.Some? ==> forall j :: 0 <= j < r.value ==> !called(xs[j])
    ensures r.None? ==> forall j :: 0 <= j < |xs| ==> !called(xs[j])
  {
    if xs == [] then None
    else if called(xs[0]) then Some(0)
    else
      match FirstCalled(xs[1..], called)
      case None => None
      case Some(k) => Some(k + 1)
  }

  /** The first agent whose poll reply reads "Yes"; later agents are not polled. */
  function Initiator(agents: seq<Voter>): Option<nat> {
    FirstCalled(agents, CallsVote)
  }

  /** The polling loop: ask each in turn, reading each reply with `called`, and stop
      at the first "Yes". */
  method PollInTurn<T>(xs: seq<T>, called: T -> bool) returns (first: Option<nat>)
    ensures first == FirstCalled(xs, called)
  {
    first := None;
    var i := 0;
    while i < |xs|
      invariant i <= |xs|
      invariant forall j :: 0 <= j < i ==> !called(xs[j])
    {
      if called(xs[i]) {
        first := Some(i);
        return;
      }
      i := i + 1;
    }
  }

  predicate Disabled(alpha: real, beta: real) {
    alpha == -1.0 && beta == -1.0
  }

  const UnboundVoteResults := "UnboundLocalError: vote_results"
  const UnhashableVote := "TypeError: unhashable type: 'dict'"

  /** `ThreeHotCotRun.run` as written: voting switched off returns True; otherwise,
      with no initiator (none found, or one with an empty role name)
      `update_weights` reads `vote_results` before any assignment, and with one the
      first vote indexes `vote_weights` by the dictionary `parse_in_vote` returns. */
  function ThreeHotCotOutcome(alpha: real, beta: real, agents: seq<Voter>): Result<bool, string> {
    if Disabled(alpha, beta) then Ok(true)
    else
      var initiator := Initiator(agents);
      if initiator.None? || agents[initiator.value].roleName == [] then Err(UnboundVoteResults)
      else Err(UnhashableVote)
  }

  /** `ThreeHotCotRun.run`, as written. */
  method ThreeHotCotRun(alpha: real, beta: real, agents: seq<Voter>) returns (r: Result<bool, string>)
    ensures r == ThreeHotCotOutcome(alpha, beta, agents)
  {
    var initiator := PollInTurn(agents, CallsVote);
    var pollInitiator := if initiator.Some? then agents[initiator.value].roleName else "";
    if Disabled(alpha, beta) {
      return Ok(true);
    }
    if pollInitiator == [] {
      // run_result is True, but update_weights then reads vote_results.
      return Err(UnboundVoteResults);
    }
    // The first vote: vote_weights[vote_result] with a dictionary as the key.
    return Err(UnhashableVote);
  }

  /** With voting switched on the weighted vote never returns a verdict: every call
      raises, whatever the replies and the thresholds. */
  lemma {:induction false} EnabledVoteNeverDecides(alpha: real, beta: real, agents: seq<Voter>)
    requires !Disabled(alpha, beta)
    ensures ThreeHotCotOutcome(alpha, beta, agents).Err?
    ensures Initiator(agents).None? ==> ThreeHotCotOutcome(alpha, beta, agents) == Err(UnboundVoteResults)
  {
  }

  /** The weight gathered by each option. */
  datatype Weights = Weights(forWeight: real, againstWeight: real, abstainWeight: real)

  function AddVote(w: Weights, option: string, weight: real): (r: Weights)
    requires IsVoteOption(option)
    ensures r.forWeight + r.againstWeight + r.abstainWeight == w.forWeight + w.againstWeight + w.abstainWeight + weight
  {
    if option == "For" then w.(forWeight := w.forWeight + weight)
    else if option == "Against" then w.(againstWeight := w.againstWeight + weight)
    else w.(abstainWeight := w.abstainWeight + weight)
  }

  /** `sum(agent.weight for agent in agents)`. */
  function TotalWeight(agents: seq<Voter>): real {
    if agents == [] then 0.0 else TotalWeight(agents[..|agents| - 1]) + agents[|agents| - 1].weight
  }

  /** The support and participation rule: `For / total >= alpha` and
      `(For + Against) / total >= beta`. */
  predicate Passes(alpha: real, beta: real, w: Weights, total: real)
    requires total != 0.0
  {
    w.forWeight / total >= alpha && (w.forWeight + w.againstWeight) / total >= beta
  }

  /** Over a positive total the rates compare as the weights do. */
  lemma {:induction false} PassesByWeight(alpha: real, beta: real, w: Weights, total: real)
    requires total > 0.0
    ensures Passes(alpha, beta, w, total) <==>
      w.forWeight >= alpha * total && w.forWeight + w.againstWeight >= beta * total
  {
    RatioAtLeast(w.forWeight, total, alpha);
    RatioAtLeast(w.forWeight + w.againstWeight, total, beta);
  }

  lemma {:induction false} RatioAtLeast(x: real, total: real, rate: real)
    requires total > 0.0
    ensures x / total >= rate <==> x >= rate * total
  {
    assert x == (x / total) * total;
    if x / total >= rate {
      assert (x / total) * total >= rate * total;
    } else {
      assert (x / total) * total < rate * total;
    }
  }

  /** The tally with the option strings as keys, as evidently intended; an option
      outside the three keys raises `KeyError`. */
  function OptionTally(agents: seq<Voter>): (r: Result<Weights, string>)
    ensures r.Ok? ==> r.value.forWeight + r.value.againstWeight + r.value.abstainWeight == TotalWeight(agents)
  {
    if agents == [] then Ok(Weights(0.0, 0.0, 0.0))
    else
      var last := agents[|agents| - 1];
      var option := ParseInVote(last.voteAnswer);
      match OptionTally(agents[..|agents| - 1])
      case Err(e) => Err(e)
      case Ok(w) =>
        if option.Some? && IsVoteOption(option.value) then Ok(AddVote(w, option.value, last.weight))
        else Err("KeyError")
  }

  /** `ThreeHotCotRun.run` with `vote_results` set before the branch and the votes
      keyed by their option: no initiator passes, an unreadable vote raises
      `KeyError`, a zero total raises `ZeroDivisionError`, and otherwise the rates
      decide. */
  function ThreeHotCotCorrected(alpha: real, beta: real, agents: seq<Voter>): Result<bool, string> {
    if Disabled(alpha, beta) then Ok(true)
    else
      var initiator := Initiator(agents);
      if initiator.None? || agents[initiator.value].roleName == [] then Ok(true)
      else
        match OptionTally(agents)
        case Err(e) => Err(e)
        case Ok(w) =>
          var total := TotalWeight(agents);
          if total == 0.0 then Err("ZeroDivisionError") else Ok(Passes(alpha, beta, w, total))
  }

  /** With positive weights and readable votes, the corrected run applies the rate
      rule over a positive total once an agent has called the vote (and
      `PassesByWeight` turns the rates into weights). */
  lemma {:induction false} CorrectedDecision(alpha: real, beta: real, agents: seq<Voter>, w: Weights)
    requires !Disabled(alpha, beta)
    requires forall j :: 0 <= j < |agents| ==> agents[j].weight > 0.0
    requires Initiator(agents).Some? && agents[Initiator(agents).value].roleName != []
    requires OptionTally(agents) == Ok(w)
    ensures TotalWeight(agents) > 0.0
    ensures ThreeHotCotCorrected(alpha, beta, agents) == Ok(Passes(alpha, beta, w, TotalWeight(agents)))
  {
    PositiveTotal(agents);
  }

  lemma {:induction false} PositiveTotal(agents: seq<Voter>)
    requires forall j :: 0 <= j < |agents| ==> agents[j].weight > 0.0
    ensures agents != [] ==> TotalWeight(agents) > 0.0
    ensures TotalWeight(agents) >= 0.0
  {
    if agents != [] {
      PositiveTotal(agents[..|agents| - 1]);
    }
  }
}
