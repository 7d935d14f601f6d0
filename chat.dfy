// Chat rooms attached to an order, the participants in them and the messages they
// exchange: the room's open/closed/archived states and capacity, the participant's
// flags and what they allow, the message's delivery status, its edit and soft-delete
// guards, and the walk up a message's reply links.

module Chat {
  import opened Common

  datatype RoomStatus = Open | Closed | Archived

  datatype ChatRole = CustomerRole | RiderRole | PharmacyRole | AdminRole | SupportRole

  datatype MessageType = Text | Image | File | SystemMessage | OrderUpdate | DeliveryUpdate

  datatype MessageStatus = Sent | Delivered | Read | MessageFailed

  datatype RoomError = AtCapacity

  datatype MessageError = CannotEdit | CannotDelete | EmptyText | MissingFilePath

  /** The status close_room leaves behind: an open room closes, any other stays as it is. */
  function AfterClose(s: RoomStatus): (r: RoomStatus)
    ensures r != Open
    ensures s == Open <==> r == Closed && r != s
  {
    if s == Open then Closed else s
  }

  /** Neither closing nor archiving ever re-opens a room, and once archived a room
      stays archived under both. */
  lemma RoomNeverReopens(s: RoomStatus)
    ensures AfterClose(AfterClose(s)) == AfterClose(s)
    ensures s == Archived ==> AfterClose(s) == Archived
    ensures s != Open ==> AfterClose(s) == s
  {
  }

  class ChatRoom {
    var roomId: string
    var status: RoomStatus
    var closedAt: Option<int>
    var maxParticipants: int
    /** The room's participant rows, by user id, with the role each joined under. */
    var participants: map<int, ChatRole>

    /** A new room: open, empty, for at most ten participants. */
    constructor ()
      ensures roomId == [] && status == Open && closedAt == None
      ensures maxParticipants == 10 && participants == map[]
    {
      roomId := [];
      status := Open;
      closedAt := None;
      maxParticipants := 10;
      participants := map[];
    }

    predicate IsActive()
      reads this
    {
      status == Open
    }

    function ParticipantCount(): nat
      reads this
    {
      |participants|
    }

    /** No more participants than the room allows. */
    predicate WithinCapacity()
      reads this
    {
      ParticipantCount() <= maxParticipants
    }

    /** add_participant: refused when the room is full, even for a user who is already
        in it; otherwise an existing participant keeps their role and a new one joins
        with the role given. The answer is the role of the user's participant row. */
    method AddParticipant(user: int, role: ChatRole) returns (r: Result<ChatRole, RoomError>)
      modifies this`participants
      ensures r.Err? <==> old(ParticipantCount()) >= maxParticipants
      ensures r.Err? ==> unchanged(this)
      ensures r.Ok? ==> participants == (if user in old(participants) then old(participants) else old(participants)[user := role])
      ensures r.Ok? ==> user in participants && r.value == participants[user]
      ensures old(WithinCapacity()) ==> WithinCapacity()
    {
      if |participants| >= maxParticipants {
        return Err(AtCapacity);
      }
      if user !in participants {
        participants := participants[user := role];
      }
      return Ok(participants[user]);
    }

    /** remove_participant: answers whether the user had a row, and deletes it. */
    method RemoveParticipant(user: int) returns (removed: bool)
      modifies this`participants
      ensures removed <==> user in old(participants)
      ensures participants == old(participants) - {user}
      ensures ParticipantCount() == old(ParticipantCount()) - (if removed then 1 else 0)
    {
      removed := user in participants;
      participants := participants - {user};
    }

    /** close_room: only an open room closes, and is stamped with the time. */
    method CloseRoom(now: int)
      modifies this`status, this`closedAt
      ensures status == AfterClose(old(status))
      ensures closedAt == if old(status) == Open then Some(now) else old(closedAt)
      ensures !IsActive()
    {
      if status == Open {
        status := Closed;
        closedAt := Some(now);
      }
    }

    /** archive_room: archives from any status. */
    method ArchiveRoom()
      modifies this`status
      ensures status == Archived && !IsActive()
    {
      status := Archived;
    }

    /** save: a room without an id gets "CHAT" followed by the timestamp text. */
    method Save(stamp: string)
      modifies this`roomId
      ensures roomId == if old(roomId) == [] then "CHAT" + stamp else old(roomId)
      ensures roomId != []
    {
      if roomId == [] {
        roomId := "CHAT" + stamp;
      }
    }
  }

  /** Seconds within which a participant last seen counts as online. */
  const OnlineWindowSeconds: int := 5 * 60

  class ChatParticipant {
    const room: ChatRoom
    const user: int
    var role: ChatRole
    var isActive: bool
    var isMuted: bool
    var isBlocked: bool
    var leftAt: Option<int>
    var lastSeen: int

    /** A new participant row: active, neither muted nor blocked, seen now. */
    constructor (room: ChatRoom, user: int, role: ChatRole, now: int)
      ensures this.room == room && this.user == user && this.role == role
      ensures isActive && !isMuted && !isBlocked && leftAt == None && lastSeen == now
    {
      this.room := room;
      this.user := user;
      this.role := role;
      isActive := true;
      isMuted := false;
      isBlocked := false;
      leftAt := None;
      lastSeen := now;
    }

    /** is_online: seen within the last five minutes, so in particular just seen. */
    function IsOnline(now: int): (r: bool)
      reads this
      ensures r <==> now - lastSeen < 300
      ensures lastSeen >= now ==> r
    {
      lastSeen > now - OnlineWindowSeconds
    }

    /** can_send_messages: active, neither muted nor blocked, in an open room; whoever
        may send may also receive. */
    function CanSendMessages(): (r: bool)
      reads this, room
      ensures r <==> isActive && !isMuted && !isBlocked && room.IsActive()
      ensures r ==> CanReceiveMessages()
    {
      isActive && !isMuted && !isBlocked && room.IsActive()
    }

    /** can_receive_messages: active and not blocked in an open room; a closed or
        archived room reaches nobody. */
    function CanReceiveMessages(): (r: bool)
      reads this, room
      ensures r <==> isActive && !isBlocked && room.IsActive()
      ensures !room.IsActive() ==> !r
    {
      isActive && !isBlocked && room.IsActive()
    }

    /** Whether the participant has left is recorded twice, by the active flag and by
        the leave stamp; leaving and rejoining keep the two in step. */
    predicate LeftInStep()
      reads this
    {
      isActive <==> leftAt == None
    }

    // Every save refreshes last_seen (auto_now), so each mutator below that saves
    // also sets lastSeen to the time of the call, after which the participant is online.

    /** leave_room: an active participant becomes inactive, stamped with the time and
        saved; an inactive one is left as it is, unsaved. */
    method LeaveRoom(now: int)
      modifies this`isActive, this`leftAt, this`lastSeen
      ensures !isActive
      ensures leftAt == if old(isActive) then Some(now) else old(leftAt)
      ensures lastSeen == if old(isActive) then now else old(lastSeen)
      ensures old(isActive) ==> IsOnline(now)
      ensures old(LeftInStep()) ==> LeftInStep()
      ensures !CanReceiveMessages() && !CanSendMessages()
    {
      if isActive {
        isActive := false;
        leftAt := Some(now);
        lastSeen := now;
      }
    }

    /** rejoin_room: an inactive participant becomes active, loses the leave stamp and
        is saved; an active one is left as it is, unsaved. */
    method RejoinRoom(now: int)
      modifies this`isActive, this`leftAt, this`lastSeen
      ensures isActive
      ensures leftAt == if old(isActive) then old(leftAt) else None
      ensures lastSeen == if old(isActive) then old(lastSeen) else now
      ensures !old(isActive) ==> IsOnline(now)
      ensures old(LeftInStep()) ==> LeftInStep()
    {
      if !isActive {
        isActive := true;
        leftAt := None;
        lastSeen := now;
      }
    }

    method MuteParticipant(now: int)
      modifies this`isMuted, this`lastSeen
      ensures isMuted && !CanSendMessages()
      ensures CanReceiveMessages() == old(CanReceiveMessages())
      ensures lastSeen == now && IsOnline(now)
    {
      isMuted := true;
      lastSeen := now;
    }

    method UnmuteParticipant(now: int)
      modifies this`isMuted, this`lastSeen
      ensures !isMuted
      ensures CanSendMessages() <==> CanReceiveMessages()
      ensures lastSeen == now && IsOnline(now)
    {
      isMuted := false;
      lastSeen := now;
    }

    /** block_participant: blocked and inactive, so it neither sends nor receives; the
        leave stamp is not touched. */
    method BlockParticipant(now: int)
      modifies this`isBlocked, this`isActive, this`lastSeen
      ensures isBlocked && !isActive
      ensures !CanSendMessages() && !CanReceiveMessages()
      ensures lastSeen == now && IsOnline(now)
    {
      isBlocked := true;
      isActive := false;
      lastSeen := now;
    }

    /** unblock_participant: unblocked and active again, whether or not the
        participant had left before; the leave stamp is not touched. */
    method UnblockParticipant(now: int)
      modifies this`isBlocked, this`isActive, this`lastSeen
      ensures !isBlocked && isActive
      ensures CanReceiveMessages() <==> room.IsActive()
      ensures lastSeen == now && IsOnline(now)
    {
      isBlocked := false;
      isActive := true;
      lastSeen := now;
    }

    /** update_last_seen */
    method UpdateLastSeen(now: int)
      modifies this`lastSeen
      ensures lastSeen == now && IsOnline(now)
    {
      lastSeen := now;
    }
  }

  /** Sending needs everything receiving needs, and differs from it only by the mute. */
  lemma SendingIsReceivingUnmuted(p: ChatParticipant)
    ensures p.CanSendMessages() <==> p.CanReceiveMessages() && !p.isMuted
  {
  }

  /** Unblocking a participant who left makes them active while the leave stamp stays:
      the two records of having left fall out of step. */
  method LeaveThenUnblock(p: ChatParticipant, now: int, later: int)
    requires p.isActive && p.LeftInStep()
    modifies p
    ensures p.isActive && p.leftAt == Some(now)
    ensures !p.LeftInStep()
  {
    p.LeaveRoom(now);
    p.UnblockParticipant(later);
  }

  /** The status mark_as_delivered leaves behind. */
  function AfterDelivered(s: MessageStatus): (r: MessageStatus)
    ensures r != s <==> s == Sent
    ensures r != Sent
  {
    if s == Sent then Delivered else s
  }

  /** The status mark_as_read leaves behind. */
  function AfterRead(s: MessageStatus): (r: MessageStatus)
    ensures r != s <==> s == Delivered
    ensures r != Delivered
  {
    if s == Delivered then Read else s
  }

  /** A message is read only after being delivered: reading a sent message does
      nothing, and delivery followed by reading takes a sent message to read. Failed
      and read messages are never moved by either. */
  lemma ReadOnlyAfterDelivery(s: MessageStatus)
    ensures AfterRead(Sent) == Sent
    ensures AfterRead(AfterDelivered(Sent)) == Read
    ensures s in {Read, MessageFailed} ==> AfterDelivered(s) == s && AfterRead(s) == s
    ensures AfterDelivered(AfterRead(s)) == AfterRead(AfterDelivered(s)) || s == Sent
  {
  }

  /** clean: a text message needs content that is not blank, and an image or file
      message needs a file path. */
  function CleanMessage(messageType: MessageType, content: string, filePath: Option<string>): (r: Outcome<MessageError>)
    ensures r == Fail(EmptyText) <==> messageType == Text && AllSpace(content)
    ensures r == Fail(MissingFilePath) <==> messageType in {Image, File} && !Truthy(filePath)
    ensures r.Pass? <==> (messageType == Text ==> !AllSpace(content)) && (messageType in {Image, File} ==> Truthy(filePath))
  {
    StripEmptyIffAllSpace(content);
    if messageType == Text && Strip(content) == [] then Fail(EmptyText)
    else if (messageType == Image || messageType == File) && !Truthy(filePath) then Fail(MissingFilePath)
    else Pass
  }

  class ChatMessage {
    const sender: ChatParticipant
    const replyTo: ChatMessage?
    var messageType: MessageType
    var content: string
    var filePath: Option<string>
    var status: MessageStatus
    var isEdited: bool
    var editedAt: Option<int>
    var isDeleted: bool
    var deletedAt: Option<int>
    var deliveredAt: Option<int>
    var readAt: Option<int>

    /** A new message: sent, neither edited nor deleted. */
    constructor (sender: ChatParticipant, replyTo: ChatMessage?, messageType: MessageType, content: string, filePath: Option<string>)
      ensures this.sender == sender && this.replyTo == replyTo
      ensures this.messageType == messageType && this.content == content && this.filePath == filePath
      ensures status == Sent && !isEdited && editedAt == None && !isDeleted && deletedAt == None
      ensures deliveredAt == None && readAt == None
    {
      this.sender := sender;
      this.replyTo := replyTo;
      this.messageType := messageType;
      this.content := content;
      this.filePath := filePath;
      status := Sent;
      isEdited := false;
      editedAt := None;
      isDeleted := false;
      deletedAt := None;
      deliveredAt := None;
      readAt := None;
    }

    predicate IsSystemMessage()
      reads this
    {
      messageType == SystemMessage
    }

    predicate IsMediaMessage()
      reads this
    {
      messageType == Image || messageType == File
    }

    /** can_be_edited: a live text message; every editable message may also be deleted. */
    function CanBeEdited(): (r: bool)
      reads this
      ensures r <==> !isDeleted && messageType == Text
      ensures r ==> CanBeDeleted()
    {
      !isDeleted && messageType == Text && !IsSystemMessage()
    }

    /** can_be_deleted: a live message that is not a system message; a deleted
        message never again. */
    function CanBeDeleted(): (r: bool)
      reads this
      ensures r <==> !isDeleted && messageType != SystemMessage
    {
      !isDeleted && !IsSystemMessage()
    }

    function Clean(): (r: Outcome<MessageError>)
      reads this
      ensures r.Pass? <==> (messageType == Text ==> !AllSpace(content)) && (IsMediaMessage() ==> Truthy(filePath))
    {
      CleanMessage(messageType, content, filePath)
    }

    /** mark_as_delivered: only a sent message moves, to delivered, stamped. */
    method MarkAsDelivered(now: int)
      modifies this`status, this`deliveredAt
      ensures status == AfterDelivered(old(status))
      ensures deliveredAt == if old(status) == Sent then Some(now) else old(deliveredAt)
    {
      if status == Sent {
        status := Delivered;
        deliveredAt := Some(now);
      }
    }

    /** mark_as_read: only a delivered message moves, to read, stamped. */
    method MarkAsRead(now: int)
      modifies this`status, this`readAt
      ensures status == AfterRead(old(status))
      ensures readAt == if old(status) == Delivered then Some(now) else old(readAt)
    {
      if status == Delivered {
        status := Read;
        readAt := Some(now);
      }
    }

    /** mark_as_failed: from any status. */
    method MarkAsFailed()
      modifies this`status
      ensures status == MessageFailed
    {
      status := MessageFailed;
    }

    /** edit_message: refused unless the message may be edited; otherwise the content
        is replaced and the message is marked edited, stamped. */
    method EditMessage(newContent: string, now: int) returns (o: Outcome<MessageError>)
      modifies this`content, this`isEdited, this`editedAt
      ensures o.Fail? <==> !CanBeEdited()
      ensures o.Fail? ==> o.error == CannotEdit && unchanged(this)
      ensures o.Pass? ==> content == newContent && isEdited && editedAt == Some(now)
    {
      if !CanBeEdited() {
        return Fail(CannotEdit);
      }
      content := newContent;
      isEdited := true;
      editedAt := Some(now);
      return Pass;
    }

    /** delete_message: a soft delete, refused unless the message may be deleted; once
        deleted the message can be neither edited nor deleted again. */
    method DeleteMessage(now: int) returns (o: Outcome<MessageError>)
      modifies this`isDeleted, this`deletedAt
      ensures o.Fail? <==> !old(CanBeDeleted())
      ensures o.Fail? ==> o.error == CannotDelete && unchanged(this)
      ensures o.Pass? ==> isDeleted && deletedAt == Some(now)
      ensures !CanBeDeleted() && !CanBeEdited()
    {
      if !CanBeDeleted() {
        return Fail(CannotDelete);
      }
      isDeleted := true;
      deletedAt := Some(now);
      return Pass;
    }

    /** get_reply_chain: the messages this one replies to, directly or through other
        replies, oldest first and without the message itself. The walk follows the
        reply links until one is missing, so it ends only when the links do; the
        caller names that ancestry, which IsAncestry pins down uniquely. */
    method GetReplyChain(ghost anc: seq<ChatMessage>) returns (chain: seq<ChatMessage>)
      requires IsAncestry(this, anc)
      ensures chain == Reversed(anc)
      ensures this !in chain
      ensures chain != [] ==> chain[0].replyTo == null && chain[|chain| - 1] == replyTo
    {
      var replies: seq<ChatMessage> := [];
      var current := this;
      ghost var i := 0;
      while current.replyTo != null
        invariant 0 <= i <= |anc|
        invariant replies == anc[..i]
        invariant current == if i == 0 then this else anc[i - 1]
        invariant current.replyTo == null <==> i == |anc|
        invariant i < |anc| ==> current.replyTo == anc[i]
        decreases |anc| - i
      {
        replies := replies + [current.replyTo];
        current := current.replyTo;
        i := i + 1;
        if i < |anc| {
          assert anc[i - 1].replyTo == anc[i];
        }
      }
      assert replies == anc;
      NotOwnAncestor(this, anc);
      chain := Reversed(replies);
      if chain != [] {
        assert chain[0] == anc[|anc| - 1];
      }
    }
  }

  /** The sequence in reverse order. */
  function Reversed<T>(s: seq<T>): (r: seq<T>)
    ensures |r| == |s|
    ensures forall i :: 0 <= i < |s| ==> r[i] == s[|s| - 1 - i]
  {
    if s == [] then [] else Reversed(s[1..]) + [s[0]]
  }

  /** anc lists the messages m replies to, nearest first, ending with a message that
      replies to none. */
  predicate IsAncestry(m: ChatMessage, anc: seq<ChatMessage>)
    reads m, anc
  {
    && (m.replyTo == null <==> anc == [])
    && (anc != [] ==> m.replyTo == anc[0] && anc[|anc| - 1].replyTo == null)
    && (forall i :: 0 <= i < |anc| - 1 ==> anc[i].replyTo == anc[i + 1])
  }

  /** Every ancestor's own ancestry is what follows it. */
  lemma AncestrySuffix(m: ChatMessage, anc: seq<ChatMessage>, k: nat)
    requires IsAncestry(m, anc) && k < |anc|
    ensures IsAncestry(anc[k], anc[k + 1..])
  {
    if k + 1 < |anc| {
      assert anc[k].replyTo == anc[k + 1];
    }
  }

  /** A message has at most one ancestry. */
  lemma {:induction false} AncestryUnique(m: ChatMessage, a: seq<ChatMessage>, b: seq<ChatMessage>)
    requires IsAncestry(m, a) && IsAncestry(m, b)
    ensures a == b
    decreases |a|
  {
    if a != [] {
      AncestrySuffix(m, a, 0);
      AncestrySuffix(m, b, 0);
      AncestryUnique(a[0], a[1..], b[1..]);
      assert a == [a[0]] + a[1..];
      assert b == [b[0]] + b[1..];
    }
  }

  /** A message is never among its own ancestors. */
  lemma NotOwnAncestor(m: ChatMessage, anc: seq<ChatMessage>)
    requires IsAncestry(m, anc)
    ensures m !in anc
  {
    if m in anc {
      var k :| 0 <= k < |anc| && anc[k] == m;
      AncestrySuffix(m, anc, k);
      AncestryUnique(m, anc, anc[k + 1..]);
      assert false;
    }
  }

  /** A message that replies to itself has no ancestry, so its reply chain never ends. */
  lemma SelfReplyHasNoAncestry(m: ChatMessage)
    requires m.replyTo == m
    ensures forall anc :: !IsAncestry(m, anc)
  {
    forall anc | IsAncestry(m, anc)
      ensures false
    {
      NotOwnAncestor(m, anc);
    }
  }
}
