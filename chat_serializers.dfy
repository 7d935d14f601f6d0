// Input validation for chat requests: room settings, updates to rooms that are no
// longer open, last-message previews, message and reply content, media file paths,
// the sender's standing, initial participant lists and search date ranges.

module ChatSerializers {
  import opened Common
  import Users
  import opened Chat

  // ---------------------------------------------------------------------------
  // Rooms
  // ---------------------------------------------------------------------------

  datatype RoomFieldError = TooFewParticipants | TooManyParticipants | DescriptionWithoutTitle | RoomNotOpen

  /** validate_max_participants: a room allows between 2 and 50 participants. */
  function ValidateMaxParticipants(value: int): (r: Result<int, RoomFieldError>)
    ensures r.Ok? <==> 2 <= value <= 50
    ensures r.Ok? ==> r.value == value
    ensures value < 2 ==> r == Err(TooFewParticipants)
    ensures value > 50 ==> r == Err(TooManyParticipants)
  {
    if value < 2 then Err(TooFewParticipants)
    else if value > 50 then Err(TooManyParticipants)
    else Ok(value)
  }

  /** validate: a description needs a title beside it. */
  function ValidateRoom(description: Option<string>, title: Option<string>): (r: Outcome<RoomFieldError>)
    ensures r.Fail? <==> Truthy(description) && !Truthy(title)
    ensures r.Fail? ==> r.error == DescriptionWithoutTitle
  {
    if Truthy(description) && !Truthy(title) then Fail(DescriptionWithoutTitle) else Pass
  }

  /** The update validator: only an open room may be changed; without an instance
      there is nothing to refuse. */
  function ValidateRoomUpdate(instance: Option<RoomStatus>): (r: Outcome<RoomFieldError>)
    ensures r.Fail? <==> instance.Some? && instance.value != Open
    ensures r.Fail? ==> r.error == RoomNotOpen
  {
    if instance.Some? && instance.value != Open then Fail(RoomNotOpen) else Pass
  }

  /** Once a room has been closed or archived it can no longer be updated. */
  lemma ClosedRoomsRefuseUpdates(s: RoomStatus)
    ensures ValidateRoomUpdate(Some(AfterClose(s))).Fail?
    ensures ValidateRoomUpdate(Some(Archived)).Fail?
    ensures ValidateRoomUpdate(Some(s)).Pass? <==> s == Open
  {
  }

  const PreviewLength: nat := 100

  /** get_last_message_preview: a room without messages says so; otherwise the last
      message's content, cut to its first hundred characters and marked with an
      ellipsis when it is longer. */
  function LastMessagePreview(last: Option<string>): (r: string)
    ensures last.None? ==> r == "No messages yet"
    ensures last.Some? && |last.value| <= PreviewLength ==> r == last.value
    ensures last.Some? && |last.value| > PreviewLength ==>
              |r| == PreviewLength + 3 && r[..PreviewLength] == last.value[..PreviewLength] && r[PreviewLength..] == "..."
  {
    if last.None? then "No messages yet"
    else if |last.value| > PreviewLength then last.value[..PreviewLength] + "..."
    else last.value
  }

  /** A preview is never longer than 103 characters and always begins the way the
      content does. It equals the content when nothing was cut, and otherwise only for
      a 103-character content that already ends in an ellipsis. */
  lemma PreviewIsBoundedPrefix(c: string)
    ensures |LastMessagePreview(Some(c))| <= PreviewLength + 3
    ensures var n := if |c| < PreviewLength then |c| else PreviewLength;
            LastMessagePreview(Some(c))[..n] == c[..n]
    ensures LastMessagePreview(Some(c)) == c <==>
              |c| <= PreviewLength || (|c| == PreviewLength + 3 && c[PreviewLength..] == "...")
  {
    var r := LastMessagePreview(Some(c));
    if |c| == PreviewLength + 3 && c[PreviewLength..] == "..." {
      assert c == c[..PreviewLength] + c[PreviewLength..];
    }
    if |c| > PreviewLength && r == c {
      assert c[PreviewLength..] == r[PreviewLength..];
    }
  }

  // ---------------------------------------------------------------------------
  // Messages
  // ---------------------------------------------------------------------------

  datatype MessageFieldError =
    | ContentBlank
    | ReplyContentBlank
    | FilePathRequired
    | TextNeedsContent
    | MediaNeedsFilePath
    | SenderNotParticipant
    | SenderCannotSend
    | MessageNotEditable
    | NotTheSender

  /** validate_content of the message and the reply serializers: content that is
      missing or only white space is refused, anything else is kept stripped. The two
      differ only in the error they report. */
  function ValidateContent(value: Option<string>, reply: bool): (r: Result<string, MessageFieldError>)
    ensures r.Err? <==> value.None? || AllSpace(value.value)
    ensures r.Err? ==> r.error == (if reply then ReplyContentBlank else ContentBlank)
    ensures r.Ok? ==> r.value == Strip(value.value) && r.value != []
    ensures r.Ok? ==> !IsSpace(r.value[0]) && !IsSpace(r.value[|r.value| - 1])
  {
    if value.None? || value.value == [] then Err(if reply then ReplyContentBlank else ContentBlank)
    else
      StripEmptyIffAllSpace(value.value);
      StripTrimmed(value.value);
      if Strip(value.value) == [] then Err(if reply then ReplyContentBlank else ContentBlank)
      else Ok(Strip(value.value))
  }

  /** Accepted content passes again unchanged: validating is idempotent. */
  lemma ValidateContentIdempotent(value: Option<string>, reply: bool)
    requires ValidateContent(value, reply).Ok?
    ensures ValidateContent(Some(ValidateContent(value, reply).value), reply) == ValidateContent(value, reply)
  {
    var v := ValidateContent(value, reply).value;
    StripIdempotent(value.value);
    StripEmptyIffAllSpace(v);
  }

  /** validate_file_path: the message type is read from the raw request, text when
      absent; an image or file message needs a file path. */
  function ValidateFilePath(rawType: Option<MessageType>, value: Option<string>): (r: Outcome<MessageFieldError>)
    ensures r.Fail? <==> rawType.Some? && rawType.value in {Image, File} && !Truthy(value)
    ensures r.Fail? ==> r.error == FilePathRequired
  {
    var t := if rawType.Some? then rawType.value else Text;
    if (t == Image || t == File) && !Truthy(value) then Fail(FilePathRequired) else Pass
  }

  /** validate: a text message needs content and an image or file message a file path;
      a message whose type was not sent is checked for neither. */
  function ValidateMessage(messageType: Option<MessageType>, content: Option<string>, filePath: Option<string>): (r: Outcome<MessageFieldError>)
    ensures r == Fail(TextNeedsContent) <==> messageType == Some(Text) && !Truthy(content)
    ensures r == Fail(MediaNeedsFilePath) <==> messageType.Some? && messageType.value in {Image, File} && !Truthy(filePath)
    ensures r.Pass? <==> ((messageType == Some(Text) ==> Truthy(content))
                          && (messageType.Some? && messageType.value in {Image, File} ==> Truthy(filePath)))
  {
    if messageType == Some(Text) && !Truthy(content) then Fail(TextNeedsContent)
    else if messageType.Some? && (messageType.value == Image || messageType.value == File) && !Truthy(filePath) then Fail(MediaNeedsFilePath)
    else Pass
  }

  /** A message of a given type whose content passed validate_content and that then
      passed validate is one the message model's own clean accepts. */
  lemma AcceptedMessageIsClean(t: MessageType, raw: Option<string>, filePath: Option<string>)
    requires ValidateContent(raw, false).Ok?
    requires ValidateMessage(Some(t), Some(ValidateContent(raw, false).value), filePath).Pass?
    ensures CleanMessage(t, ValidateContent(raw, false).value, filePath).Pass?
  {
    var c := ValidateContent(raw, false).value;
    if t == Text {
      assert !IsSpace(c[0]);
    }
  }

  /** The create validator: the requester must be a participant of the room who may
      send messages there. */
  function ValidateMessageCreate(participant: Option<ChatParticipant>): (r: Outcome<MessageFieldError>)
    reads if participant.Some? then {participant.value, participant.value.room} else {}
    ensures r.Pass? <==> participant.Some? && participant.value.CanSendMessages()
    ensures participant.None? ==> r == Fail(SenderNotParticipant)
  {
    if participant.None? then Fail(SenderNotParticipant)
    else if !participant.value.CanSendMessages() then Fail(SenderCannotSend)
    else Pass
  }

  /** A muted, blocked or departed participant, or anyone in a room that is not open,
      is refused. */
  lemma SilencedSenderRefused(p: ChatParticipant)
    requires p.isMuted || p.isBlocked || !p.isActive || p.room.status != Open
    ensures ValidateMessageCreate(Some(p)) == Fail(SenderCannotSend)
  {
  }

  /** The update validator: the message must be editable, then the requester must be
      the user who sent it. */
  function ValidateMessageUpdate(m: ChatMessage, requester: int): (r: Outcome<MessageFieldError>)
    reads m, m.sender
    ensures r.Pass? <==> m.CanBeEdited() && m.sender.user == requester
    ensures !m.CanBeEdited() ==> r == Fail(MessageNotEditable)
  {
    if !m.CanBeEdited() then Fail(MessageNotEditable)
    else if m.sender.user != requester then Fail(NotTheSender)
    else Pass
  }

  /** A deleted or non-text message is never open to update, even for its sender. */
  lemma DeletedMessagesAreFinal(m: ChatMessage)
    requires m.isDeleted || m.messageType != Text
    ensures ValidateMessageUpdate(m, m.sender.user) == Fail(MessageNotEditable)
  {
  }

  // ---------------------------------------------------------------------------
  // Participants
  // ---------------------------------------------------------------------------

  datatype ParticipantRowError = AlreadyParticipant

  datatype ParticipantError = MissingUserIdOrRole(index: nat) | InvalidRole(index: nat)

  /** The participant validator: creating a row for a user the room already has is
      refused; updating an existing row is not checked. */
  function ValidateParticipant(room: ChatRoom, user: int, creating: bool): (r: Outcome<ParticipantRowError>)
    reads room
    ensures r.Fail? <==> creating && user in room.participants
  {
    if creating && user in room.participants then Fail(AlreadyParticipant) else Pass
  }

  /** The role names a request may use. */
  function RoleName(role: ChatRole): string
  {
    match role
    case CustomerRole => "customer"
    case RiderRole => "rider"
    case PharmacyRole => "pharmacy"
    case AdminRole => "admin"
    case SupportRole => "support"
  }

  function ParseRole(s: string): (r: Option<ChatRole>)
    ensures r.Some? ==> RoleName(r.value) == s
  {
    if s == "customer" then Some(CustomerRole)
    else if s == "rider" then Some(RiderRole)
    else if s == "pharmacy" then Some(PharmacyRole)
    else if s == "admin" then Some(AdminRole)
    else if s == "support" then Some(SupportRole)
    else None
  }

  /** Every role parses back from its name, so a name is valid exactly when it is one
      of the five. */
  lemma RoleNamesRoundTrip(role: ChatRole, s: string)
    ensures ParseRole(RoleName(role)) == Some(role)
    ensures ParseRole(s).Some? <==> exists q :: RoleName(q) == s
  {
    if exists q :: RoleName(q) == s {
      var q :| RoleName(q) == s;
      assert ParseRole(RoleName(q)) == Some(q);
    }
  }

  /** One initial participant: it names a user id and a role, and the role is one of
      the five. */
  predicate WellFormedParticipant(p: map<string, Json>)
  {
    "user_id" in p && "role" in p && p["role"].JStr? && ParseRole(p["role"].s).Some?
  }

  function ParticipantProblem(p: map<string, Json>, index: nat): Option<ParticipantError>
  {
    if "user_id" !in p || "role" !in p then Some(MissingUserIdOrRole(index))
    else if !p["role"].JStr? || ParseRole(p["role"].s).None? then Some(InvalidRole(index))
    else None
  }

  /** The first participant, from position `from` on, that is malformed. */
  function FirstBadParticipant(ps: seq<map<string, Json>>, from: nat): (r: Option<ParticipantError>)
    requires from <= |ps|
    ensures r.None? <==> forall i :: from <= i < |ps| ==> WellFormedParticipant(ps[i])
    ensures r.Some? ==> from <= r.value.index < |ps| && !WellFormedParticipant(ps[r.value.index])
                        && (forall i :: from <= i < r.value.index ==> WellFormedParticipant(ps[i]))
                        && r.value == ParticipantProblem(ps[r.value.index], r.value.index).value
    decreases |ps| - from
  {
    if from == |ps| then None
    else if ParticipantProblem(ps[from], from).Some? then ParticipantProblem(ps[from], from)
    else FirstBadParticipant(ps, from + 1)
  }

  /** validate_participants: a missing or empty list passes; otherwise the first
      participant without a user id or role, or with a role outside the five, is
      reported. */
  function ValidateParticipants(value: Option<seq<map<string, Json>>>): (r: Outcome<ParticipantError>)
    ensures r.Pass? <==> value.None? || forall i :: 0 <= i < |value.value| ==> WellFormedParticipant(value.value[i])
    ensures r.Fail? ==> value.Some? && r.error.index < |value.value|
  {
    if value.None? then Pass
    else match FirstBadParticipant(value.value, 0)
      case None => Pass
      case Some(e) => Fail(e)
  }

  /** Every accepted participant can be turned into a row of the room model. */
  lemma AcceptedParticipantsHaveRoles(ps: seq<map<string, Json>>, i: nat)
    requires ValidateParticipants(Some(ps)).Pass? && i < |ps|
    ensures "user_id" in ps[i] && "role" in ps[i] && ps[i]["role"].JStr?
    ensures exists q :: RoleName(q) == ps[i]["role"].s
  {
    RoleNamesRoundTrip(CustomerRole, ps[i]["role"].s);
  }

  // ---------------------------------------------------------------------------
  // Search
  // ---------------------------------------------------------------------------

  datatype SearchError = DatesReversed

  /** validate: when both dates are given, the first may not be after the second. */
  function ValidateSearch(dateFrom: Option<Users.Date>, dateTo: Option<Users.Date>): (r: Outcome<SearchError>)
    ensures r.Fail? <==> dateFrom.Some? && dateTo.Some? && Users.DateBefore(dateTo.value, dateFrom.value)
  {
    if dateFrom.Some? && dateTo.Some? && Users.DateBefore(dateTo.value, dateFrom.value) then Fail(DatesReversed) else Pass
  }
}
