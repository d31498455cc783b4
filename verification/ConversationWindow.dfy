/** The dialogue shown to the brain: the longest suffix of whole turns within the character budget. */
module ConversationWindow {
  import opened Common

  datatype Role = User | Friday

  datatype Message = Message(role: Role, text: string)

  /** A question and, once its run has finished with a summary, the answer; both already clipped. */
  datatype Turn = Turn(question: string, answer: Option<string>)

  function TurnMessages(t: Turn): seq<Message> {
    [Message(User, t.question)] + if t.answer.Some? then [Message(Friday, t.answer.value)] else []
  }

  function Messages(turns: seq<Turn>): seq<Message> {
    if turns == [] then [] else TurnMessages(turns[0]) + Messages(turns[1..])
  }

  function Size(messages: seq<Message>): nat {
    if messages == [] then 0 else |messages[0].text| + Size(messages[1..])
  }

  /** Dropping the first k turns is the least that fits. */
  ghost predicate LongestFitting(turns: seq<Turn>, k: nat, maxChars: nat) {
    && k <= |turns|
    && Size(Messages(turns[k..])) <= maxChars
    && forall j :: 0 <= j < k ==> Size(Messages(turns[j..])) > maxChars
  }

  lemma {:induction false} MessagesStartWithQuestion(turns: seq<Turn>)
    ensures Messages(turns) != [] <==> turns != []
    ensures turns != [] ==> Messages(turns)[0] == Message(User, turns[0].question)
  {
  }

  method MessagesFor(turns: seq<Turn>) returns (messages: seq<Message>)
    ensures messages == Messages(turns)
  {
    messages := [];
    for i := 0 to |turns|
      invariant messages + Messages(turns[i..]) == Messages(turns)
    {
      assert turns[i..][1..] == turns[i + 1..];
      ghost var before := messages;
      messages := messages + [Message(User, turns[i].question)];
      if turns[i].answer.Some? {
        messages := messages + [Message(Friday, turns[i].answer.value)];
      }
      assert messages == before + TurnMessages(turns[i]);
      assert messages + Messages(turns[i + 1..]) == before + (TurnMessages(turns[i]) + Messages(turns[i + 1..]));
    }
  }

  /** One round of the loop drops the first question and the answer that follows it. */
  lemma DropTurn(turns: seq<Turn>)
    requires turns != []
    ensures var rest := Messages(turns)[1..];
            Messages(turns[1..]) == if rest != [] && rest[0].role.Friday? then rest[1..] else rest
  {
    MessagesStartWithQuestion(turns[1..]);
  }

  /** Drop whole turns from the front until what is left fits. */
  method Trim(turns: seq<Turn>, maxChars: nat) returns (messages: seq<Message>, k: nat)
    ensures LongestFitting(turns, k, maxChars) && messages == Messages(turns[k..])
  {
    messages := MessagesFor(turns);
    k := 0;
    assert turns[0..] == turns;
    while Size(messages) > maxChars && messages != []
      invariant k <= |turns| && messages == Messages(turns[k..])
      invariant forall j :: 0 <= j < k ==> Size(Messages(turns[j..])) > maxChars
      decreases |turns| - k
    {
      MessagesStartWithQuestion(turns[k..]);
      DropTurn(turns[k..]);
      assert turns[k..][1..] == turns[k + 1..];
      messages := messages[1..];
      if messages != [] && messages[0].role.Friday? {
        messages := messages[1..];
      }
      k := k + 1;
    }
  }

  /**
   `window` is what the query returns: at most one turn more than the maximum.  The omitted and the kept turns make up
   the window, the kept ones are a suffix of it, and no longer suffix within the turn limit fits the budget.
   */
  method Assemble(window: seq<Turn>, maxTurns: nat, maxChars: nat) returns (messages: seq<Message>, omitted: nat)
    requires maxTurns >= 1 && maxChars >= 1
    ensures omitted <= |window| && messages == Messages(window[omitted..])
    ensures |window| - omitted <= maxTurns
    ensures var first := if |window| > maxTurns then |window| - maxTurns else 0;
            first <= omitted && LongestFitting(window[first..], omitted - first, maxChars)
    ensures messages != [] ==> messages[0].role.User?
  {
    var first := if |window| > maxTurns then |window| - maxTurns else 0;
    var k;
    messages, k := Trim(window[first..], maxChars);
    omitted := first + k;
    assert window[first..][k..] == window[omitted..];
    MessagesStartWithQuestion(window[omitted..]);
  }
}
