/**
 * The agency chat window: the message log that is cleared, fetched and
 * re-fetched, the send handler that persists a message before announcing it
 * on the socket, and the per-message rules for the day separator, the side a
 * message is drawn on and its read ticks.
 *
 * Days are whole numbers counted from any fixed origin; the current day is a
 * parameter.
 */
module AgencyChat {
  import opened Text

  /** A message of the log; `senderId` is `None` when the record lacks one. */
  datatype Message = Message(id: string, senderId: Option<string>, content: string, day: int, read: bool)

  /** The signed-in user, as the auth context provides it; `id` may be missing. */
  datatype AuthUser = AuthUser(id: Option<string>)

  /** `user?.id`. */
  function UserId(user: Option<AuthUser>): Option<string> {
    if user.None? then None else user.value.id
  }

  // ---------------------------------------------------------------------
  // Day labels and separators

  /** What `formatDate` shows; `toLocaleDateString` gives each other day its own text. */
  datatype DateLabel = Today | Yesterday | OnDate(day: int)

  function FormatDate(day: int, today: int): (r: DateLabel)
    ensures r == Today <==> day == today
    ensures r == Yesterday <==> day == today - 1
    ensures r.OnDate? ==> r.day == day && day != today && day != today - 1
  {
    if day == today then Today
    else if day == today - 1 then Yesterday
    else OnDate(day)
  }

  /** Two days get the same label exactly when they are the same day. */
  lemma FormatDateInjective(a: int, b: int, today: int)
    ensures FormatDate(a, today) == FormatDate(b, today) <==> a == b
  {
    if FormatDate(a, today) == FormatDate(b, today) {
      var l := FormatDate(a, today);
      if l.OnDate? {
        assert a == l.day == b;
      }
    }
  }

  /** `showDate`: message `i` opens a new day. */
  predicate ShowDate(msgs: seq<Message>, i: nat, today: int)
    requires i < |msgs|
  {
    i == 0 || FormatDate(msgs[i].day, today) != FormatDate(msgs[i - 1].day, today)
  }

  /** A separator is drawn exactly where the day changes from the previous message. */
  lemma ShowDateIffDayChanges(msgs: seq<Message>, i: nat, today: int)
    requires i < |msgs|
    ensures ShowDate(msgs, i, today) <==> i == 0 || msgs[i].day != msgs[i - 1].day
  {
    if i > 0 {
      FormatDateInjective(msgs[i].day, msgs[i - 1].day, today);
    }
  }

  predicate SortedByDay(msgs: seq<Message>) {
    forall j, k :: 0 <= j < k < |msgs| ==> msgs[j].day <= msgs[k].day
  }

  /**
   * In a log ordered by day, a separator is drawn exactly above the first
   * message of each day.
   */
  lemma SeparatorMarksFirstOfDay(msgs: seq<Message>, i: nat, today: int)
    requires i < |msgs| && SortedByDay(msgs)
    ensures ShowDate(msgs, i, today) <==> forall j :: 0 <= j < i ==> msgs[j].day != msgs[i].day
  {
    ShowDateIffDayChanges(msgs, i, today);
    if i > 0 && msgs[i].day != msgs[i - 1].day {
      forall j | 0 <= j < i
        ensures msgs[j].day != msgs[i].day
      {
        assert msgs[j].day <= msgs[i - 1].day;
      }
    }
  }

  // ---------------------------------------------------------------------
  // Own messages and read ticks

  /** `message.senderId === user?.id`; a missing value is `undefined` on both sides. */
  predicate IsOwn(m: Message, user: Option<AuthUser>) {
    m.senderId == UserId(user)
  }

  datatype Ticks = SingleTick | DoubleTick

  /** The tick drawn under a message: only own messages get one, doubled once read. */
  function ReadTicks(m: Message, user: Option<AuthUser>): (r: Option<Ticks>)
    ensures r.Some? <==> IsOwn(m, user)
    ensures r == Some(DoubleTick) <==> IsOwn(m, user) && m.read
  {
    if IsOwn(m, user) then Some(if m.read then DoubleTick else SingleTick) else None
  }

  /**
   * Without a signed-in user only a message that lacks a sender is drawn as
   * one's own (`undefined === undefined`), so only such a message gets ticks.
   */
  lemma NoTicksWithoutUser(msgs: seq<Message>)
    ensures forall k :: 0 <= k < |msgs| ==> (ReadTicks(msgs[k], None) == None <==> msgs[k].senderId.Some?)
  {
  }

  /** For a user with an id, a message is one's own exactly when it carries that id. */
  lemma OwnMessagesCarryTheUsersId(m: Message, id: string)
    ensures IsOwn(m, Some(AuthUser(Some(id)))) <==> m.senderId == Some(id)
    ensures ReadTicks(m, Some(AuthUser(Some(id)))).Some? ==> m.senderId.Some?
  {
  }

  // ---------------------------------------------------------------------
  // The chat window

  /** What `fetchMessages` settled with. */
  datatype FetchOutcome = Fetched(log: seq<Message>) | FetchFailed

  /** What the persistence dispatch of `sendMessage` settled with. */
  datatype SendOutcome = Persisted | SendFailed

  /** The events the window emits on the socket. */
  datatype SocketEvent =
    | JoinRoom(roomId: Option<string>)
    | SendMessage(roomId: Option<string>, content: string, senderId: Option<string>)

  /** The log after a fetch: a fetched log replaces it whole, a failure keeps it. */
  function AfterFetch(current: seq<Message>, outcome: FetchOutcome): (r: seq<Message>)
    ensures outcome.Fetched? ==> r == outcome.log
    ensures outcome.FetchFailed? ==> r == current
  {
    if outcome.Fetched? then outcome.log else current
  }

  class ChatWindow {
    const candidateId: Option<string>
    var messages: seq<Message>
    var newMessage: string
    var sendingMessage: bool
    /** The text captured by the send that has not settled yet. */
    var inFlight: Option<string>
    /** Everything emitted on the socket, oldest first. */
    var emitted: seq<SocketEvent>

    /** A send is in flight exactly while the sending flag is up. */
    ghost predicate Valid()
      reads this
    {
      sendingMessage <==> inFlight.Some?
    }

    constructor (candidate: Option<string>)
      ensures Valid()
      ensures candidateId == candidate && messages == [] && newMessage == ""
      ensures !sendingMessage && inFlight == None && emitted == []
    {
      candidateId := candidate;
      messages := [];
      newMessage := "";
      sendingMessage := false;
      inFlight := None;
      emitted := [];
    }

    /**
     * The effect run for a candidate: the log is cleared before the fetch
     * and the room is joined; with no candidate nothing happens.
     */
    method Open(fetch: FetchOutcome)
      modifies this`messages, this`emitted
      ensures Truthy(candidateId) ==> messages == AfterFetch([], fetch)
      ensures Truthy(candidateId) ==> emitted == old(emitted) + [JoinRoom(candidateId)]
      ensures !Truthy(candidateId) ==> messages == old(messages) && emitted == old(emitted)
    {
      if Truthy(candidateId) {
        messages := [];
        messages := AfterFetch(messages, fetch);
        emitted := emitted + [JoinRoom(candidateId)];
      }
    }

    /** The 'new_message' listener: the whole log is fetched again. */
    method OnNewMessage(fetch: FetchOutcome)
      modifies this`messages
      ensures messages == AfterFetch(old(messages), fetch)
    {
      messages := AfterFetch(messages, fetch);
    }

    /** Typing in the message input. */
    method SetNewMessage(value: string)
      modifies this`newMessage
      ensures newMessage == value
    {
      newMessage := value;
    }

    /**
     * The synchronous part of `handleSendMessage`: nothing happens for
     * blank input or while a send is in flight; otherwise the flag goes up
     * and the current text is captured for the send.
     */
    method StartSend() returns (started: bool)
      requires Valid()
      modifies this`sendingMessage, this`inFlight
      ensures Valid()
      ensures started <==> Trim(newMessage) != "" && !old(sendingMessage)
      ensures started ==> sendingMessage && inFlight == Some(newMessage)
      ensures !started ==> sendingMessage == old(sendingMessage) && inFlight == old(inFlight)
    {
      if Trim(newMessage) == "" || sendingMessage {
        return false;
      }
      sendingMessage := true;
      inFlight := Some(newMessage);
      started := true;
    }

    /**
     * The rest of `handleSendMessage`, once the persistence dispatch has
     * settled. On success the input is cleared and 'send_message' is
     * emitted; reading `user.id` with no user signed in throws after the
     * input was cleared, so nothing is emitted then. On failure the typed
     * text stays. The flag comes down either way. `failed` is whether the
     * 'Failed to send message' toast is shown.
     */
    method FinishSend(outcome: SendOutcome, user: Option<AuthUser>) returns (failed: bool)
      requires Valid() && sendingMessage
      modifies this`sendingMessage, this`inFlight, this`newMessage, this`emitted
      ensures Valid()
      ensures !sendingMessage && inFlight == None
      ensures failed <==> outcome == SendFailed || user.None?
      ensures outcome == SendFailed ==> newMessage == old(newMessage) && emitted == old(emitted)
      ensures outcome == Persisted ==> newMessage == ""
      ensures outcome == Persisted && user.Some? ==>
                emitted == old(emitted) + [SendMessage(candidateId, old(inFlight).value, user.value.id)]
      ensures user.None? ==> emitted == old(emitted)
    {
      var content := inFlight.value;
      failed := false;
      if outcome == Persisted {
        newMessage := "";
        if user.Some? {
          emitted := emitted + [SendMessage(candidateId, content, user.value.id)];
        } else {
          failed := true;
        }
      } else {
        failed := true;
      }
      sendingMessage := false;
      inFlight := None;
    }

    /**
     * `handleSendMessage` as one step, when no other send is in flight:
     * blank input does nothing; otherwise the message is announced, with
     * the text typed when the send started, only if it was persisted and a
     * user is signed in. The log is not touched.
     */
    method HandleSendMessage(outcome: SendOutcome, user: Option<AuthUser>) returns (announced: bool)
      requires Valid() && !sendingMessage
      modifies this`sendingMessage, this`inFlight, this`newMessage, this`emitted
      ensures Valid() && !sendingMessage
      ensures announced <==> Trim(old(newMessage)) != "" && outcome == Persisted && user.Some?
      ensures announced ==>
                emitted == old(emitted) + [SendMessage(candidateId, old(newMessage), user.value.id)]
      ensures !announced ==> emitted == old(emitted)
      ensures newMessage == if Trim(old(newMessage)) != "" && outcome == Persisted then "" else old(newMessage)
    {
      var started := StartSend();
      if !started {
        return false;
      }
      var failed := FinishSend(outcome, user);
      announced := !failed;
    }
  }
}
