/**
 * The deal room (components/DealRoom.tsx): a chat whose messages and input
 * box are component state, and a fixed milestone list.
 */
module DealRoom {
  import opened Wrappers
  import opened Types
  import opened Strings

  /** A milestone's display status; `Pending` is the source's 'pending'. */
  datatype MilestoneStatus = Complete | Current | Pending

  datatype Milestone = Milestone(name: DealStage, status: MilestoneStatus)

  /** The milestone panel; it is the same list whatever stage the deal is in. */
  const Milestones: seq<Milestone> := [
    Milestone(Negotiation, Complete),
    Milestone(SpaSigned, Current),
    Milestone(LcOpened, Pending),
    Milestone(Logistics, Pending),
    Milestone(Completed, Pending)
  ]

  /** The positions of the milestones marked current. */
  ghost function CurrentAt(ms: seq<Milestone>): set<int>
  {
    set i | 0 <= i < |ms| && ms[i].status == Current
  }

  /**
   * The milestones name the five stages once each in enum order, everything
   * before the current one is complete, everything after it pending, and the
   * current one is the signed purchase agreement.
   */
  lemma MilestonesFollowStages()
    ensures |Milestones| == |AllStages|
    ensures forall i :: 0 <= i < |Milestones| ==> Milestones[i].name == AllStages[i]
    ensures CurrentAt(Milestones) == {1} && Milestones[1].name == SpaSigned
    ensures forall i :: 0 <= i < 1 ==> Milestones[i].status == Complete
    ensures forall i :: 1 < i < |Milestones| ==> Milestones[i].status == Pending
  {
    var c := CurrentAt(Milestones);
    forall i | i in c ensures i == 1 {
      assert 0 <= i < 5 && Milestones[i].status == Current;
    }
    assert 1 in c;
  }

  /** A message is drawn on the right, without a sender caption, iff the signed-in user sent it. */
  predicate IsMine(msg: ChatMessage, user: User)
  {
    msg.senderId == user.id
  }

  /** The two messages the room opens with. */
  const InitialMessages: seq<ChatMessage> := [
    ChatMessage("m1", "u2", "Copper Ridge", "We have uploaded the latest assay report.", "10:00 AM", None),
    ChatMessage("m2", "u1", "Global Tech", "Received. Reviewing now.", "10:05 AM", None)
  ]

  /** Which opening messages read as one's own depends only on the user's id. */
  lemma InitialMessagesOwnership(user: User)
    ensures IsMine(InitialMessages[0], user) <==> user.id == "u2"
    ensures IsMine(InitialMessages[1], user) <==> user.id == "u1"
  {
  }

  /** The message `handleSend` builds; `id` and `timestamp` stand for the clock readings. */
  function Outgoing(user: User, text: string, id: string, timestamp: string): (m: ChatMessage)
    ensures IsMine(m, user)
  {
    ChatMessage(id, user.id, user.name, text, timestamp, None)
  }

  /** A send goes through iff the trimmed input is non-empty, that is iff some character is not white space. */
  predicate Sendable(text: string)
  {
    Trim(text) != ""
  }

  lemma SendableIffNonBlank(text: string)
    ensures Sendable(text) <==> exists i :: 0 <= i < |text| && !IsWhitespace(text[i])
  {
    TrimEmptyIff(text);
  }

  lemma BlankIsNotSendable(text: string)
    requires forall i :: 0 <= i < |text| ==> IsWhitespace(text[i])
    ensures !Sendable(text)
  {
    TrimEmptyIff(text);
  }

  lemma VisibleIsSendable(text: string, k: nat)
    requires k < |text| && !IsWhitespace(text[k])
    ensures Sendable(text)
  {
    SendableIffNonBlank(text);
  }

  /** The component's state for one deal and one viewer. */
  class DealRoomState {
    const deal: Deal
    const currentUser: User
    var messages: seq<ChatMessage>
    var inputText: string

    constructor (deal: Deal, currentUser: User)
      ensures this.deal == deal && this.currentUser == currentUser
      ensures messages == InitialMessages && inputText == ""
    {
      this.deal := deal;
      this.currentUser := currentUser;
      messages := InitialMessages;
      inputText := "";
    }

    /** The input box's `onChange`. */
    method SetInputText(value: string)
      modifies this`inputText
      ensures inputText == value
    {
      inputText := value;
    }

    /**
     * `handleSend`: blank input changes nothing; otherwise one message with
     * the untrimmed input is appended and the input is cleared.
     */
    method HandleSend(id: string, timestamp: string)
      modifies this`messages, this`inputText
      ensures !Sendable(old(inputText)) ==> messages == old(messages) && inputText == old(inputText)
      ensures Sendable(old(inputText)) ==>
                messages == old(messages) + [Outgoing(currentUser, old(inputText), id, timestamp)] &&
                inputText == ""
    {
      if Trim(inputText) == "" {
        return;
      }
      var msg := Outgoing(currentUser, inputText, id, timestamp);
      messages := messages + [msg];
      inputText := "";
    }
  }

  /** A send keeps every earlier message in place and adds exactly one, the sender's own. */
  lemma SendAppendsOne(before: seq<ChatMessage>, user: User, text: string, id: string, timestamp: string)
    ensures var after := before + [Outgoing(user, text, id, timestamp)];
            |after| == |before| + 1 && after[..|before|] == before &&
            IsMine(after[|before|], user) && after[|before|].content == text &&
            after[|before|].senderName == user.name
  {
  }

  /**
   * A conversation in the room: a white-space-only input is refused, then a
   * text with some visible character is sent verbatim as the viewer's own
   * and the box is cleared.
   */
  method ChatSession(deal: Deal, user: User, blank: string, text: string, k: nat)
    returns (afterBlank: nat, sent: ChatMessage, input: string)
    requires forall i :: 0 <= i < |blank| ==> IsWhitespace(blank[i])
    requires k < |text| && !IsWhitespace(text[k])
    ensures afterBlank == |InitialMessages|
    ensures sent == ChatMessage("m3", user.id, user.name, text, "10:10 AM", None) && IsMine(sent, user)
    ensures input == ""
  {
    var room := new DealRoomState(deal, user);
    room.SetInputText(blank);
    BlankIsNotSendable(blank);
    room.HandleSend("m3", "10:09 AM");
    afterBlank := |room.messages|;
    room.SetInputText(text);
    VisibleIsSendable(text, k);
    room.HandleSend("m3", "10:10 AM");
    sent := room.messages[|room.messages| - 1];
    input := room.inputText;
  }
}
