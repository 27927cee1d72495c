/** Prompting the user: `Ask` repeats a prompt until the input reader gives an acceptable line,
    and `AreYouSure` asks a yes/no question. The reader is a script of the replies its `Read`
    calls return, in order. */
module Prompt {
  import opened Strings

  /** What one `Read` call returns: a line, or an error. */
  datatype ReadReply = Line(text: string) | ReadFailed(error: string)

  /** Ask stops at a reply that is not an error and, when an answer is required, is not blank. */
  predicate Accepts(r: ReadReply, required: bool) {
    r.Line? && !(required && TrimSpace(r.text) == "")
  }

  /** The index of the reply Ask stops at, or |replies| when it would never stop. */
  function FirstAccepted(replies: seq<ReadReply>, required: bool): (k: nat)
    ensures k <= |replies|
    ensures forall i :: 0 <= i < k ==> !Accepts(replies[i], required)
    ensures k < |replies| ==> Accepts(replies[k], required)
  {
    if |replies| == 0 then 0
    else if Accepts(replies[0], required) then 0
    else 1 + FirstAccepted(replies[1..], required)
  }

  /** The reader eventually gives an acceptable reply, so Ask returns. */
  predicate Answers(replies: seq<ReadReply>, required: bool) {
    FirstAccepted(replies, required) < |replies|
  }

  /** The answer Ask returns: the accepted line without surrounding white space. */
  function Answer(replies: seq<ReadReply>, required: bool): (a: string)
    requires Answers(replies, required)
    ensures a == TrimSpace(replies[FirstAccepted(replies, required)].text)
    ensures required ==> a != ""
    ensures a != [] ==> !IsSpace(a[0]) && !IsSpace(a[|a| - 1])
  {
    TrimSpace(replies[FirstAccepted(replies, required)].text)
  }

  /** Ask: prints `s: ` before every read, retries after a read error and, when `required`,
      after a blank answer, and returns the first accepted answer trimmed. `attempts` is the
      number of replies consumed. */
  method Ask(s: string, required: bool, secret: bool, replies: seq<ReadReply>)
    returns (response: string, attempts: nat, printed: seq<string>)
    requires Answers(replies, required)
    ensures attempts == FirstAccepted(replies, required) + 1
    ensures response == Answer(replies, required)
    ensures printed == Repeat(s + ": ", attempts)
  {
    var k := FirstAccepted(replies, required);
    response := "";
    attempts := 0;
    printed := [];
    while true
      invariant attempts <= k
      invariant printed == Repeat(s + ": ", attempts)
      decreases k - attempts
    {
      printed := printed + [s + ": "];
      var reply := replies[attempts];
      attempts := attempts + 1;
      response := TrimSpace(if reply.Line? then reply.text else "");
      if reply.ReadFailed? {
        continue;
      }
      if |response| == 0 && required {
        continue;
      }
      break;
    }
  }

  /** The question AreYouSure asks. */
  function Question(message: string): string {
    message + " [y/n]"
  }

  /** The question the delete operations ask before sending a DELETE. */
  const CannotBeUndone: string := "This operation cannot be undone. Are you sure?"

  /** What AreYouSure prints: the question with its prompt suffix, once per reply it reads. */
  function ConfirmPrompts(message: string, replies: seq<ReadReply>): (printed: seq<string>)
    requires Answers(replies, false)
    ensures |printed| == FirstAccepted(replies, false) + 1
    ensures forall i :: 0 <= i < |printed| ==> printed[i] == Question(message) + ": "
  {
    Repeat(Question(message) + ": ", FirstAccepted(replies, false) + 1)
  }

  /** Whether the user confirms: the first line read, trimmed, is exactly "y". */
  predicate Confirmed(replies: seq<ReadReply>)
    requires Answers(replies, false)
  {
    Answer(replies, false) == "y"
  }

  /** AreYouSure: one non-required, non-secret Ask of the question; true only for "y". */
  method AreYouSure(message: string, replies: seq<ReadReply>) returns (yes: bool, attempts: nat, printed: seq<string>)
    requires Answers(replies, false)
    ensures yes <==> Confirmed(replies)
    ensures attempts == FirstAccepted(replies, false) + 1
    ensures printed == ConfirmPrompts(message, replies)
  {
    var response;
    response, attempts, printed := Ask(Question(message), false, false, replies);
    yes := response == "y";
  }

  predicate AllSpace(s: string) {
    forall i :: 0 <= i < |s| ==> IsSpace(s[i])
  }

  /** A line confirms exactly when it is a single "y" with only white space around it. */
  lemma ConfirmingLine(text: string)
    ensures TrimSpace(text) == "y" <==>
            exists i :: 0 <= i < |text| && text[i] == 'y' && AllSpace(text[..i]) && AllSpace(text[i + 1..])
  {
    if TrimSpace(text) == "y" {
      var i := LeadingSpace(text);
      assert text[i] == TrimSpace(text)[0];
      assert AllSpace(text[..i]);
      assert AllSpace(text[i + 1..]) by {
        var u := text[i + 1..];
        forall j | 0 <= j < |u| ensures IsSpace(u[j]) {
          assert u[j] == text[i + 1 + j];
        }
      }
    }
    if exists i :: 0 <= i < |text| && text[i] == 'y' && AllSpace(text[..i]) && AllSpace(text[i + 1..]) {
      var i :| 0 <= i < |text| && text[i] == 'y' && AllSpace(text[..i]) && AllSpace(text[i + 1..]);
      assert forall j :: 0 <= j < i ==> IsSpace(text[j]) by {
        forall j | 0 <= j < i ensures IsSpace(text[j]) { assert text[..i][j] == text[j]; }
      }
      assert forall j :: i + 1 <= j < |text| ==> IsSpace(text[j]) by {
        forall j | i + 1 <= j < |text| ensures IsSpace(text[j]) { assert text[i + 1..][j - i - 1] == text[j]; }
      }
      TrimSpaceBetween(text, i, i + 1);
      assert text[i..i + 1] == "y";
    }
  }

  /** The answers the app operation's tests feed: "y\n" confirms, "n\n" does not. */
  lemma ConfirmExamples()
    ensures Confirmed([Line("y\n")])
    ensures !Confirmed([Line("n\n")])
  {
    TrimSpacePadded("", "y", "\n");
    TrimSpacePadded("", "n", "\n");
    assert "" + "y" + "\n" == "y\n";
    assert "" + "n" + "\n" == "n\n";
  }

  /** A line without surrounding white space is the answer as typed. */
  lemma LineAnswer(w: string, rest: seq<ReadReply>)
    requires w != [] ==> !IsSpace(w[0]) && !IsSpace(w[|w| - 1])
    ensures Answers([Line(w)] + rest, false) && Answer([Line(w)] + rest, false) == w
  {
    TrimSpacePadded("", w, "");
    assert "" + w + "" == w;
  }

  /** Only a lower-case "y" confirms: "Y", "yes" and an empty line do not. */
  lemma OnlyLowerYConfirms()
    ensures !Confirmed([Line("Y")])
    ensures !Confirmed([Line("yes")])
    ensures !Confirmed([Line("")])
  {
    LineAnswer("Y", []);
    LineAnswer("yes", []);
    LineAnswer("", []);
    assert [Line("Y")] + [] == [Line("Y")];
    assert [Line("yes")] + [] == [Line("yes")];
    assert [Line("")] + [] == [Line("")];
  }

  /** A read error is never an answer: the question is asked again and the next line decides. */
  lemma ReadErrorRetries(e: string, rest: seq<ReadReply>)
    requires Answers(rest, false)
    ensures Answers([ReadFailed(e)] + rest, false)
    ensures FirstAccepted([ReadFailed(e)] + rest, false) == FirstAccepted(rest, false) + 1
    ensures Confirmed([ReadFailed(e)] + rest) <==> Confirmed(rest)
  {
    assert ([ReadFailed(e)] + rest)[1..] == rest;
  }

  /** A blank line is retried only when an answer is required; otherwise it is the empty answer. */
  lemma BlankLine(text: string, rest: seq<ReadReply>)
    requires AllSpace(text)
    ensures !Accepts(Line(text), true)
    ensures Accepts(Line(text), false) && Answer([Line(text)] + rest, false) == ""
  {
    TrimSpacePadded(text, "", "");
    assert text + "" + "" == text;
  }
}
