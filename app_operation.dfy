/** The app (heritage) operation: deletes a heritage after an optional confirmation, or shows it.
    The client's answers and the input reader's lines are given up front; the result comes with
    the requests sent and the lines printed. */
module AppOperation {
  import opened Wrappers
  import opened Operation
  import opened ApiTypes
  import opened Effects
  import opened Prompt

  /** AppOperation: the heritage name, what to do with it, and whether to skip the confirmation. */
  datatype AppOperation = AppOperation(name: string, opType: OperationType, noConfirm: bool)

  function HeritagePath(name: string): string {
    "/heritages/" + name
  }

  /** The line printed before a deletion is attempted. */
  function AttemptLine(name: string): string {
    "You are attempting to delete " + name + "\n"
  }

  /** Whether `run` asks for a confirmation before deleting. */
  predicate Prompts(op: AppOperation) {
    op.name != "" && op.opType == Delete && !op.noConfirm
  }

  /** app_delete. `deleteReply` is the client's answer to the DELETE; its body is not read. */
  function AppDelete(op: AppOperation, deleteReply: Outcome, replies: seq<ReadReply>): (t: Trace<RunResult>)
    requires !op.noConfirm ==> Answers(replies, false)
    ensures t.result.Declined? <==> !op.noConfirm && !Confirmed(replies)
    ensures t.result.Declined? ==> t.calls == []
    ensures !t.result.Declined? ==> t.calls == [Call("DELETE", HeritagePath(op.name), NoBody)]
    ensures !t.result.Declined? && deleteReply.Fail? ==> t.result == ErrorResult(deleteReply.error)
    ensures !t.result.Declined? && deleteReply.Pass? ==> t.result == OkResult()
    ensures |t.out| >= 1 && t.out[0] == AttemptLine(op.name)
    ensures t.out[1..] == (if op.noConfirm then [] else ConfirmPrompts(CannotBeUndone, replies))
                          + (if t.result == OkResult() then ["Deleted " + op.name + "\n"] else [])
  {
    var asked := if op.noConfirm then [] else ConfirmPrompts(CannotBeUndone, replies);
    var printed := [AttemptLine(op.name)] + asked;
    if !op.noConfirm && !Confirmed(replies) then
      Trace(Declined, [], printed)
    else
      var calls := [Call("DELETE", HeritagePath(op.name), NoBody)];
      if deleteReply.Fail? then Trace(ErrorResult(deleteReply.error), calls, printed)
      else Trace(OkResult(), calls, printed + ["Deleted " + op.name + "\n"])
  }

  /** app_show. `showReply` decodes to the response's `heritage` member, `None` when it is absent.
      Printing the heritage is not modelled. */
  function AppShow(op: AppOperation, showReply: Reply<Option<HeritageRest>>): (t: Trace<RunResult>)
    ensures t.calls == [Call("GET", HeritagePath(op.name), NoBody)]
    ensures t.out == []
    ensures !showReply.Decoded? ==> t.result == ErrorResult(ReplyError(showReply).value)
    ensures showReply.Decoded? && showReply.value.None? ==> t.result == ErrorResult("No such heritage")
    ensures showReply.Decoded? && showReply.value.Some? ==> t.result == OkResult()
  {
    var calls := [Call("GET", HeritagePath(op.name), NoBody)];
    match showReply
    case Failed(e) => Trace(ErrorResult(e), calls, [])
    case Undecodable(e) => Trace(ErrorResult(e), calls, [])
    case Decoded(heritage) =>
      if heritage.None? then Trace(ErrorResult("No such heritage"), calls, [])
      else Trace(OkResult(), calls, [])
  }

  /** AppOperation.run: an empty name is refused before anything else, then the operation
      type picks deletion or display; any other type is unknown. */
  function Run(op: AppOperation, showReply: Reply<Option<HeritageRest>>, deleteReply: Outcome,
               replies: seq<ReadReply>): (t: Trace<RunResult>)
    requires Prompts(op) ==> Answers(replies, false)
    ensures op.name == "" ==> t == Trace(ErrorResult("district name is required"), [], [])
    ensures op.name != "" && !op.opType.Delete? && !op.opType.Show? ==>
              t == Trace(ErrorResult("unknown operation"), [], [])
    ensures op.name != "" && op.opType == Delete ==> t == AppDelete(op, deleteReply, replies)
    ensures op.name != "" && op.opType == Show ==> t == AppShow(op, showReply)
    // A DELETE goes out exactly when the name is given, deletion was asked for, and it was not
    // declined; the user is asked only when the confirmation was not skipped.
    ensures Call("DELETE", HeritagePath(op.name), NoBody) in t.calls <==>
            op.name != "" && op.opType == Delete && (op.noConfirm || Confirmed(replies))
    ensures t.result.Declined? <==> Prompts(op) && !Confirmed(replies)
    ensures |t.calls| <= 1
  {
    if |op.name| == 0 then Trace(ErrorResult("district name is required"), [], [])
    else if op.opType == Delete then AppDelete(op, deleteReply, replies)
    else if op.opType == Show then AppShow(op, showReply)
    else Trace(ErrorResult("unknown operation"), [], [])
  }

  /** A deletion without confirmation prints the attempt and the deletion. */
  lemma DeleteWithoutConfirmation(name: string)
    requires name != ""
    ensures Run(AppOperation(name, Delete, true), Failed("unused"), Pass, []).out ==
            [AttemptLine(name), "Deleted " + name + "\n"]
  {
  }

  /** One reply that its own answer `w` decides: asked once, and deleted exactly when `w` is "y". */
  lemma DeleteAnswered(name: string, w: string)
    requires name != ""
    ensures var t := Run(AppOperation(name, Delete, false), Failed("unused"), Pass, [Line(w)]);
            && t.out[..2] == [AttemptLine(name), CannotBeUndone + " [y/n]: "]
            && (t.result.Declined? <==> !Confirmed([Line(w)]))
            && (Confirmed([Line(w)]) ==> t.out == [AttemptLine(name), CannotBeUndone + " [y/n]: ", "Deleted " + name + "\n"])
            && (!Confirmed([Line(w)]) ==> t.calls == [] && t.out == [AttemptLine(name), CannotBeUndone + " [y/n]: "])
  {
    assert FirstAccepted([Line(w)], false) == 0;
    assert Question(CannotBeUndone) + ": " == CannotBeUndone + " [y/n]: ";
    assert ConfirmPrompts(CannotBeUndone, [Line(w)]) == [CannotBeUndone + " [y/n]: "];
  }

  /** A show reply that decodes but carries no heritage is an error, and nothing is printed. */
  lemma ShowWithoutHeritage(name: string)
    requires name != ""
    ensures var t := Run(AppOperation(name, Show, true), Decoded(None), Pass, []);
            Execute(t.result) == ExitError("No such heritage", 1) && t.out == []
  {
  }
}
