/**
 * Chat permissions and room rules (chat.service.ts) over the rooms and
 * messages of chat-room.entity.ts and message.entity.ts. Projects are read
 * as getProjectById loads them: with their owner, bids (and the bids'
 * freelancers) and contract.
 */
module Chat {
  import opened Common
  import Users
  import Projects

  /** The stages of a project's chat, in order (chat.service.ts:462). */
  const Stages: seq<string> := ["introduction", "negotiation", "contract", "execution"]

  /**
   * getNextStage (chat.service.ts:461-465): the stage after the given one;
   * execution stays put, and an unknown stage has index -1, so it maps to
   * the first stage.
   */
  function NextStage(stage: string): (r: string)
    ensures r in Stages
    ensures stage == "introduction" ==> r == "negotiation"
    ensures stage == "negotiation" ==> r == "contract"
    ensures stage == "contract" || stage == "execution" ==> r == "execution"
    ensures stage !in Stages ==> r == "introduction"
  {
    var i := IndexOf(Stages, stage);
    if i + 1 < |Stages| then Stages[i + 1] else stage
  }

  /** `Array.prototype.indexOf`: the first position of `x`, or -1. */
  function IndexOf(s: seq<string>, x: string): (r: int)
    ensures -1 <= r < |s|
    ensures r >= 0 ==> s[r] == x && forall j :: 0 <= j < r ==> s[j] != x
    ensures r == -1 <==> x !in s
  {
    if |s| == 0 then -1
    else if s[0] == x then 0
    else var k := IndexOf(s[1..], x); if k == -1 then -1 else k + 1
  }

  /** Iterated getNextStage. */
  function Advance(stage: string, n: nat): string
    decreases n
  {
    if n == 0 then stage else Advance(NextStage(stage), n - 1)
  }

  /**
   * From any stage four steps reach execution (an unknown stage first
   * falls back to introduction), and execution is then kept for ever.
   */
  lemma FourStepsReachExecution(stage: string, n: nat)
    requires n >= 4
    ensures Advance(stage, n) == "execution"
  {
    var s1 := NextStage(stage);
    var s2 := NextStage(s1);
    var s3 := NextStage(s2);
    var s4 := NextStage(s3);
    assert s2 == "negotiation" || s2 == "contract" || s2 == "execution";
    assert s4 == "execution";
    assert Advance(stage, n) == Advance(s4, n - 4) by {
      assert Advance(stage, n) == Advance(s1, n - 1);
      assert Advance(s1, n - 1) == Advance(s2, n - 2);
      assert Advance(s2, n - 2) == Advance(s3, n - 3);
    }
    ExecutionIsFinal(s4, n - 4);
  }

  lemma {:induction false} ExecutionIsFinal(stage: string, n: nat)
    requires stage == "execution"
    ensures Advance(stage, n) == "execution"
    decreases n
  {
    if n > 0 {
      ExecutionIsFinal(NextStage(stage), n - 1);
    }
  }

  /** The bids of a project, as its `bids` relation holds them. */
  predicate HasBid(bids: seq<Projects.Bid>, projectId: nat, userId: int, acceptedOnly: bool)
  {
    exists i :: 0 <= i < |bids| && bids[i].projectId == projectId && bids[i].freelancerId == userId
                && (!acceptedOnly || bids[i].status == "accepted")
  }

  /**
   * `project.contract?.signatures?.freelancer !== null`: a missing contract,
   * missing signatures or a missing key all read as `undefined`, which is not
   * `null`.
   */
  predicate FreelancerSignatureNotNull(p: Projects.Project, contracts: seq<Projects.Contract>)
  {
    p.contract.None? || p.contract.value >= |contracts|
    || contracts[p.contract.value].signatures.None?
    || !contracts[p.contract.value].signatures.value.freelancer.Null?
  }

  /** canSendMessage (chat.service.ts:584-609). */
  predicate CanSendMessage(userId: int, projectId: nat, p: Projects.Project, bids: seq<Projects.Bid>, contracts: seq<Projects.Contract>)
  {
    if p.ownerId == userId then true
    else match p.currentStage
      case "introduction" => true
      case "negotiation" => HasBid(bids, projectId, userId, true)
      case "contract" => FreelancerSignatureNotNull(p, contracts)
      case "execution" => FreelancerSignatureNotNull(p, contracts)
      case _ => false
  }

  /** canJoinChat (chat.service.ts:626-631): the owner or anyone with a bid, of any status. */
  predicate CanJoinChat(userId: int, projectId: nat, p: Projects.Project, bids: seq<Projects.Bid>)
  {
    p.ownerId == userId || HasBid(bids, projectId, userId, false)
  }

  /** In the negotiation stage whoever may send may also join. */
  lemma NegotiationSendersCanJoin(userId: int, projectId: nat, p: Projects.Project, bids: seq<Projects.Bid>, contracts: seq<Projects.Contract>)
    requires p.currentStage == "negotiation"
    ensures CanSendMessage(userId, projectId, p, bids, contracts) ==> CanJoinChat(userId, projectId, p, bids)
  {
    if CanSendMessage(userId, projectId, p, bids, contracts) && p.ownerId != userId {
      var i :| 0 <= i < |bids| && bids[i].projectId == projectId && bids[i].freelancerId == userId && bids[i].status == "accepted";
      assert HasBid(bids, projectId, userId, false);
    }
  }

  /** The project owner may send and join in every stage, whatever the bids or the contract. */
  lemma OwnerAlwaysAllowed(projectId: nat, p: Projects.Project, bids: seq<Projects.Bid>, contracts: seq<Projects.Contract>)
    ensures CanSendMessage(p.ownerId, projectId, p, bids, contracts)
    ensures CanJoinChat(p.ownerId, projectId, p, bids)
  {
  }

  /** A stage outside the four known ones silences every non-owner. */
  lemma UnknownStageSilences(userId: int, projectId: nat, p: Projects.Project, bids: seq<Projects.Bid>, contracts: seq<Projects.Contract>)
    requires p.currentStage !in Stages && p.ownerId != userId
    ensures !CanSendMessage(userId, projectId, p, bids, contracts)
  {
  }

  /**
   * The two checks are independent: in the introduction stage a user with
   * no bid may send to the project but not join its chat.
   */
  lemma OutsiderSendsButCannotJoin(p: Projects.Project, contracts: seq<Projects.Contract>)
    requires p.currentStage == "introduction" && p.ownerId != 7
    ensures CanSendMessage(7, 0, p, [], contracts)
    ensures !CanJoinChat(7, 0, p, [])
  {
  }

  /** The freelancer signature decides the contract and execution stages, whatever the bids. */
  lemma NullSignatureSilencesNonOwners(userId: int, projectId: nat, p: Projects.Project, bids: seq<Projects.Bid>, contracts: seq<Projects.Contract>)
    requires p.currentStage in ["contract", "execution"] && p.ownerId != userId
    requires p.contract.Some? && p.contract.value < |contracts|
    requires contracts[p.contract.value].signatures.Some?
    ensures CanSendMessage(userId, projectId, p, bids, contracts)
            <==> !contracts[p.contract.value].signatures.value.freelancer.Null?
  {
  }

  /** A position of `Array.prototype.slice`: negative counts from the end; both ends are clamped. */
  function SliceIndex(x: int, len: nat): (r: nat)
    ensures r <= len
    ensures 0 <= x <= len ==> r == x
  {
    if x < 0 then (if len + x < 0 then 0 else len + x) else if x > len then len else x
  }

  /** `s.slice(start, end)`. */
  function JsSlice<T>(s: seq<T>, start: int, end: int): (r: seq<T>)
    ensures 0 <= start <= end <= |s| ==> r == s[start..end]
    ensures |r| <= |s|
    ensures exists a, b :: 0 <= a <= b <= |s| && r == s[a..b]
  {
    var a := SliceIndex(start, |s|);
    var b := SliceIndex(end, |s|);
    if a < b then s[a..b] else assert s[0..0] == []; []
  }

  /**
   * The page of getChatHistory (chat.service.ts:230-233): an absent or zero
   * offset is 0, an absent or zero limit is the whole list.
   */
  function HistoryPage<T>(msgs: seq<T>, limit: Option<int>, offset: Option<int>): (r: seq<T>)
    ensures exists a, b :: 0 <= a <= b <= |msgs| && r == msgs[a..b]
    ensures limit.Some? && limit.value > 0 ==> |r| <= limit.value
    ensures (offset.None? || offset.value == 0) && (limit.None? || limit.value == 0) ==> r == msgs
  {
    var start := if offset.Some? && offset.value != 0 then offset.value else 0;
    var count := if limit.Some? && limit.value != 0 then limit.value else |msgs|;
    JsSlice(msgs, start, start + count)
  }

  function Min(a: int, b: int): int { if a < b then a else b }

  /** A non-negative offset and positive limit give messages [offset, offset + limit), clamped to the list. */
  lemma PageIsWindow<T>(msgs: seq<T>, limit: nat, offset: nat)
    requires limit > 0
    ensures HistoryPage(msgs, Some(limit), Some(offset)) == msgs[Min(offset, |msgs|)..Min(offset + limit, |msgs|)]
  {
  }

  /** Without limit or offset the whole history is returned. */
  lemma DefaultPageIsEverything<T>(msgs: seq<T>)
    ensures HistoryPage(msgs, None, None) == msgs
  {
    assert msgs[0..|msgs|] == msgs;
  }

  /** Two consecutive pages of one size are the page of twice that size. */
  lemma ConsecutivePages<T>(msgs: seq<T>, limit: nat, offset: nat)
    requires limit > 0
    ensures HistoryPage(msgs, Some(limit), Some(offset)) + HistoryPage(msgs, Some(limit), Some(offset + limit))
            == HistoryPage(msgs, Some(2 * limit), Some(offset))
  {
    PageIsWindow(msgs, limit, offset);
    PageIsWindow(msgs, limit, offset + limit);
    PageIsWindow(msgs, 2 * limit, offset);
    var n := |msgs|;
    assert offset + limit + limit == offset + 2 * limit;
    AdjacentSlices(msgs, Min(offset, n), Min(offset + limit, n), Min(offset + 2 * limit, n));
  }

  /** Two slices that meet make up the slice that spans both. */
  lemma AdjacentSlices<T>(s: seq<T>, a: nat, b: nat, c: nat)
    requires a <= b <= c <= |s|
    ensures s[a..b] + s[b..c] == s[a..c]
  {
    assert forall k :: 0 <= k < c - a ==> (s[a..b] + s[b..c])[k] == s[a..c][k];
  }

  /** A chat room row; `roomType` defaults to 'introduction' and `status` to 'active'. */
  datatype ChatRoom = ChatRoom(projectId: nat, roomType: string, status: string, allowedUsers: seq<int>)

  datatype Reaction = Reaction(userId: int, reaction: string)

  /** A message row; `reactions` is a nullable JSON list. */
  datatype Message = Message(
    senderId: int,
    receiverId: int,
    roomId: nat,
    content: string,
    status: string,
    reactions: Option<seq<Reaction>>)

  /**
   * The ids of a room's messages, newest first (`timestamp DESC`; the store
   * is in creation order and a deleted message leaves a `None`).
   */
  function RoomMessageIds(msgs: seq<Option<Message>>, roomId: nat): (r: seq<nat>)
    ensures forall i :: 0 <= i < |r| ==> r[i] < |msgs| && msgs[r[i]].Some? && msgs[r[i]].value.roomId == roomId
    ensures forall k :: 0 <= k < |msgs| && msgs[k].Some? && msgs[k].value.roomId == roomId ==> k in r
    ensures forall i, j :: 0 <= i < j < |r| ==> r[i] > r[j]
    decreases |msgs|
  {
    if |msgs| == 0 then []
    else
      var rest := RoomMessageIds(msgs[..|msgs| - 1], roomId);
      var last := msgs[|msgs| - 1];
      if last.Some? && last.value.roomId == roomId then [|msgs| - 1] + rest else rest
  }

  /** The live messages at the given ids, in the order given. */
  function MessagesAt(msgs: seq<Option<Message>>, ids: seq<nat>): (r: seq<Message>)
    requires forall i :: 0 <= i < |ids| ==> ids[i] < |msgs| && msgs[ids[i]].Some?
    ensures |r| == |ids|
    ensures forall i :: 0 <= i < |ids| ==> Some(r[i]) == msgs[ids[i]]
  {
    if |ids| == 0 then [] else [msgs[ids[0]].value] + MessagesAt(msgs, ids[1..])
  }

  /** The first room of a project with the given type (`None` for any type). */
  function FirstRoom(rooms: seq<ChatRoom>, projectId: nat, roomType: Option<string>): (r: Option<nat>)
    ensures r.Some? ==>
      r.value < |rooms| && rooms[r.value].projectId == projectId
      && (roomType.None? || rooms[r.value].roomType == roomType.value)
    ensures r.Some? ==> forall j :: 0 <= j < r.value ==>
      !(rooms[j].projectId == projectId && (roomType.None? || rooms[j].roomType == roomType.value))
    ensures r.None? <==> forall j :: 0 <= j < |rooms| ==>
      !(rooms[j].projectId == projectId && (roomType.None? || rooms[j].roomType == roomType.value))
  {
    if |rooms| == 0 then None
    else if rooms[0].projectId == projectId && (roomType.None? || rooms[0].roomType == roomType.value) then Some(0)
    else match FirstRoom(rooms[1..], projectId, roomType)
      case None => None
      case Some(k) => Some(k + 1)
  }

  /** The values of the rooms' status column (chat-room.entity.ts:28-33). */
  const RoomStatuses: seq<string> := ["active", "closed"]

  /** The four rooms initializeProjectChat creates (chat.service.ts:378-392). */
  function InitialRooms(projectId: nat, ownerId: int): (r: seq<ChatRoom>)
    ensures |r| == 4
    ensures forall i :: 0 <= i < 4 ==> r[i].projectId == projectId && r[i].roomType == Stages[i]
    ensures r[0].status == "active" && r[0].allowedUsers == [ownerId]
    ensures forall i :: 1 <= i < 4 ==> r[i].status == "locked" && r[i].allowedUsers == []
  {
    [ChatRoom(projectId, "introduction", "active", [ownerId]),
     ChatRoom(projectId, "negotiation", "locked", []),
     ChatRoom(projectId, "contract", "locked", []),
     ChatRoom(projectId, "execution", "locked", [])]
  }

  class ChatService {
    const users: Users.UsersService
    const projects: Projects.ProjectService
    var rooms: seq<ChatRoom>                 // the id of a room is its position
    var messages: seq<Option<Message>>       // the id of a message is its position; None once deleted

    constructor(users: Users.UsersService, projects: Projects.ProjectService)
      ensures this.users == users && this.projects == projects && rooms == [] && messages == []
    {
      this.users := users;
      this.projects := projects;
      rooms := [];
      messages := [];
    }

    /** The project as getProjectById returns it, or `None` for a missing id. */
    function ProjectById(projectId: int): (r: Option<Projects.Project>)
      reads projects
      ensures r.Some? <==> 0 <= projectId < |projects.projects|
      ensures r.Some? ==> r.value == projects.projects[projectId]
    {
      if 0 <= projectId < |projects.projects| then Some(projects.projects[projectId]) else None
    }

    /**
     * getChatHistory (chat.service.ts:215-235): the requested page of the
     * newest-first messages of the project's room of that type.
     */
    function GetChatHistory(projectId: nat, roomType: string, limit: Option<int>, offset: Option<int>): (r: Result<seq<Message>>)
      reads this
      ensures FirstRoom(rooms, projectId, Some(roomType)).None? <==> r == Err(NotFound("Chat room not found"))
      ensures r.Ok? ==> |r.value| <= |RoomMessageIds(messages, FirstRoom(rooms, projectId, Some(roomType)).value)|
      ensures r.Ok? && limit.None? && offset.None? ==>
        r.value == MessagesAt(messages, RoomMessageIds(messages, FirstRoom(rooms, projectId, Some(roomType)).value))
      ensures r.Ok? ==> forall m :: m in r.value ==> m.roomId == FirstRoom(rooms, projectId, Some(roomType)).value
      ensures r.Ok? ==>
        var all := MessagesAt(messages, RoomMessageIds(messages, FirstRoom(rooms, projectId, Some(roomType)).value));
        r.value == HistoryPage(all, limit, offset)
    {
      match FirstRoom(rooms, projectId, Some(roomType))
      case None => Err(NotFound("Chat room not found"))
      case Some(i) =>
        var all := MessagesAt(messages, RoomMessageIds(messages, i));
        DefaultPageIsEverything(all);
        Ok(HistoryPage(all, limit, offset))
    }

    /**
     * The joins of the introduction, negotiation and contract rooms
     * (chat.service.ts:125-170): only canJoinChat is consulted, never the
     * stage; the join is then followed by the awaited history of the room of
     * that type (sendChatHistoryForRoom, chat.service.ts:468-481), which
     * fails when the project has no such room.
     */
    function JoinStageChat(user: Option<int>, projectId: int, roomType: string): (r: Result<()>)
      reads this, projects
      ensures user.None? ==> r == Err(Forbidden("Unauthorized"))
      ensures user.Some? ==>
        (r.Ok? <==> ProjectById(projectId).Some?
                    && CanJoinChat(user.value, projectId, ProjectById(projectId).value, projects.bids)
                    && FirstRoom(rooms, projectId, Some(roomType)).Some?)
      ensures user.Some? && !(ProjectById(projectId).Some? && CanJoinChat(user.value, projectId, ProjectById(projectId).value, projects.bids)) ==>
        r == Err(Forbidden("Not allowed to join this chat"))
      ensures user.Some? && ProjectById(projectId).Some? && CanJoinChat(user.value, projectId, ProjectById(projectId).value, projects.bids)
              && FirstRoom(rooms, projectId, Some(roomType)).None? ==>
        r == Err(NotFound("Chat room not found"))
    {
      if user.None? then Err(Forbidden("Unauthorized"))
      else match ProjectById(projectId)
        case None => Err(Forbidden("Not allowed to join this chat"))
        case Some(p) =>
          if !CanJoinChat(user.value, projectId, p, projects.bids) then Err(Forbidden("Not allowed to join this chat"))
          else match GetChatHistory(projectId, roomType, None, None)
            case Err(e) => Err(e)
            case Ok(_) => Ok(())
    }

    /**
     * getOrCreateChatRoom (chat.service.ts:537-557): the project's first
     * room of any type is returned unchanged; otherwise only the owner may
     * create one, with default type and status and the caller allowed.
     */
    method GetOrCreateChatRoom(projectId: nat, userId: int) returns (r: Result<nat>)
      modifies this
      ensures messages == old(messages)
      ensures old(FirstRoom(rooms, projectId, None)).Some? ==>
        r == Ok(old(FirstRoom(rooms, projectId, None)).value) && rooms == old(rooms)
      ensures old(FirstRoom(rooms, projectId, None)).None? && !(ProjectById(projectId).Some? && ProjectById(projectId).value.ownerId == userId) ==>
        r == Err(Forbidden("Only owner can create chat room")) && rooms == old(rooms)
      ensures old(FirstRoom(rooms, projectId, None)).None? && ProjectById(projectId).Some? && ProjectById(projectId).value.ownerId == userId ==>
        rooms == old(rooms) + [ChatRoom(projectId, "introduction", "active", [userId])] && r == Ok(|old(rooms)|)
      ensures r.Ok? ==> r.value < |rooms| && rooms[r.value].projectId == projectId
    {
      var found := FirstRoom(rooms, projectId, None);
      if found.Some? {
        return Ok(found.value);
      }
      var p := ProjectById(projectId);
      if !(p.Some? && p.value.ownerId == userId) {
        return Err(Forbidden("Only owner can create chat room"));
      }
      r := Ok(|rooms|);
      rooms := rooms + [ChatRoom(projectId, "introduction", "active", [userId])];
    }

    /**
     * initializeProjectChat (chat.service.ts:370-394): when the project has
     * no room yet, the four stage rooms are created one by one; reading the
     * owner of a missing project throws.
     */
    method InitializeProjectChat(projectId: nat) returns (r: Result<()>)
      modifies this
      ensures messages == old(messages)
      ensures old(FirstRoom(rooms, projectId, None)).Some? ==> rooms == old(rooms) && r == Ok(())
      ensures old(FirstRoom(rooms, projectId, None)).None? && ProjectById(projectId).None? ==>
        rooms == old(rooms) && r == Err(TypeError("Cannot read properties of null (reading 'owner')"))
      ensures old(FirstRoom(rooms, projectId, None)).None? && ProjectById(projectId).Some? ==>
        rooms == old(rooms) + InitialRooms(projectId, ProjectById(projectId).value.ownerId) && r == Ok(())
    {
      if FirstRoom(rooms, projectId, None).Some? {
        return Ok(());
      }
      var p := ProjectById(projectId);
      if p.None? {
        return Err(TypeError("Cannot read properties of null (reading 'owner')"));
      }
      var plan := InitialRooms(projectId, p.value.ownerId);
      var i := 0;
      while i < |plan|
        invariant 0 <= i <= |plan|
        invariant rooms == old(rooms) + plan[..i]
        invariant messages == old(messages)
      {
        rooms := rooms + [plan[i]];
        i := i + 1;
      }
      assert plan[..|plan|] == plan;
      r := Ok(());
    }

    /**
     * initializeProjectChat as written: the three later rooms are saved with
     * status 'locked', which is not a value of the status column's enum
     * (chat-room.entity.ts:28-33), so under MySQL's strict mode the second
     * save is refused after the introduction room has been stored.
     */
    method InitializeProjectChatAsWritten(projectId: nat) returns (r: Result<()>)
      modifies this
      ensures messages == old(messages)
      ensures old(FirstRoom(rooms, projectId, None)).Some? ==> rooms == old(rooms) && r == Ok(())
      ensures old(FirstRoom(rooms, projectId, None)).None? && ProjectById(projectId).None? ==>
        rooms == old(rooms) && r == Err(TypeError("Cannot read properties of null (reading 'owner')"))
      ensures old(FirstRoom(rooms, projectId, None)).None? && ProjectById(projectId).Some? ==>
        rooms == old(rooms) + InitialRooms(projectId, ProjectById(projectId).value.ownerId)[..1]
        && r == Err(Failure("Data truncated for column 'status' at row 1"))
    {
      if FirstRoom(rooms, projectId, None).Some? {
        return Ok(());
      }
      var p := ProjectById(projectId);
      if p.None? {
        return Err(TypeError("Cannot read properties of null (reading 'owner')"));
      }
      var plan := InitialRooms(projectId, p.value.ownerId);
      var i := 0;
      while i < |plan|
        invariant 0 <= i <= 1
        invariant rooms == old(rooms) + plan[..i]
        invariant messages == old(messages)
        invariant forall j :: 0 <= j < i ==> plan[j].status in RoomStatuses
      {
        if plan[i].status !in RoomStatuses {
          return Err(Failure("Data truncated for column 'status' at row 1"));
        }
        rooms := rooms + [plan[i]];
        i := i + 1;
      }
      assert false;
      r := Ok(());
    }

    /**
     * handleMessage (chat.service.ts:61-92): an identified sender, an
     * existing receiver and a project the sender may send to; the message is
     * stored in the project's room as 'sent' and then marked 'delivered',
     * while the caller gets the 'sent' copy.
     */
    method HandleMessage(sender: Option<int>, receiverId: int, projectId: nat, content: string) returns (r: Result<Message>)
      modifies this
      ensures sender.None? ==> r == Err(Forbidden("Unauthorized")) && unchanged(this)
      ensures sender.Some? && users.Find(receiverId).None? ==> r == Err(NotFound("User not found")) && unchanged(this)
      ensures sender.Some? && users.Find(receiverId).Some?
              && !(ProjectById(projectId).Some? && CanSendMessage(sender.value, projectId, ProjectById(projectId).value, projects.bids, projects.contracts)) ==>
        r == Err(Forbidden("Not allowed to send message")) && unchanged(this)
      ensures sender.Some? && users.Find(receiverId).Some? && ProjectById(projectId).Some?
              && CanSendMessage(sender.value, projectId, ProjectById(projectId).value, projects.bids, projects.contracts) ==>
        if old(FirstRoom(rooms, projectId, None)).Some? then
          rooms == old(rooms)
          && r == Ok(Message(sender.value, receiverId, old(FirstRoom(rooms, projectId, None)).value, content, "sent", None))
          && messages == old(messages) + [Some(r.value.(status := "delivered"))]
        else if ProjectById(projectId).value.ownerId != sender.value then
          r == Err(Forbidden("Only owner can create chat room")) && rooms == old(rooms) && messages == old(messages)
        else
          rooms == old(rooms) + [ChatRoom(projectId, "introduction", "active", [sender.value])]
          && r == Ok(Message(sender.value, receiverId, old(|rooms|), content, "sent", None))
          && messages == old(messages) + [Some(r.value.(status := "delivered"))]
      ensures r.Ok? ==>
        sender.Some? && |messages| == old(|messages|) + 1 && messages[..old(|messages|)] == old(messages)
        && r.value.roomId < |rooms| && rooms[r.value.roomId].projectId == projectId
        && r.value == Message(sender.value, receiverId, r.value.roomId, content, "sent", None)
        && messages[old(|messages|)] == Some(r.value.(status := "delivered"))
    {
      if sender.None? {
        return Err(Forbidden("Unauthorized"));
      }
      if users.Find(receiverId).None? {
        return Err(NotFound("User not found"));
      }
      var p := ProjectById(projectId);
      if !(p.Some? && CanSendMessage(sender.value, projectId, p.value, projects.bids, projects.contracts)) {
        return Err(Forbidden("Not allowed to send message"));
      }
      var room := GetOrCreateChatRoom(projectId, sender.value);
      if room.Err? {
        return Err(room.error);
      }
      var m := Message(sender.value, receiverId, room.value, content, "sent", None);
      messages := messages + [Some(m)];
      assert messages[..|messages| - 1] == old(messages);
      messages := messages[|messages| - 1 := Some(m.(status := "delivered"))];
      r := Ok(m);
    }

    /** markMessageAsRead (chat.service.ts:195-212): only that message's status changes, to 'read'. */
    method MarkMessageAsRead(messageId: int) returns (r: Result<Message>)
      modifies this
      ensures rooms == old(rooms)
      ensures !(0 <= messageId < old(|messages|) && old(messages[messageId]).Some?) ==>
        r == Err(NotFound("Message not found")) && messages == old(messages)
      ensures 0 <= messageId < old(|messages|) && old(messages[messageId]).Some? ==>
        messages == old(messages)[messageId := Some(old(messages[messageId]).value.(status := "read"))]
        && r == Ok(old(messages[messageId]).value)
    {
      if !(0 <= messageId < |messages| && messages[messageId].Some?) {
        return Err(NotFound("Message not found"));
      }
      var m := messages[messageId].value;
      messages := messages[messageId := Some(m.(status := "read"))];
      r := Ok(m);
    }

    /** The message lookup and sender check shared by updateMessage and deleteMessage. */
    function SenderCheck(user: Option<int>, messageId: int, action: string): (r: Result<Message>)
      reads this
      ensures r.Ok? <==> 0 <= messageId < |messages| && messages[messageId].Some? && user.Some?
                         && messages[messageId].value.senderId == user.value
      ensures r.Ok? ==> Some(r.value) == messages[messageId]
      ensures !(0 <= messageId < |messages| && messages[messageId].Some?) ==> r == Err(NotFound("Message not found"))
    {
      if !(0 <= messageId < |messages| && messages[messageId].Some?) then Err(NotFound("Message not found"))
      else if user.None? then Err(TypeError("Cannot read properties of undefined (reading 'id')"))
      else if messages[messageId].value.senderId != user.value then Err(Forbidden("You are not allowed to " + action + " this message"))
      else Ok(messages[messageId].value)
    }

    /** updateMessage (chat.service.ts:238-256): the sender alone may edit, and only the content changes. */
    method UpdateMessage(user: Option<int>, messageId: int, newText: string) returns (r: Result<Message>)
      modifies this
      ensures rooms == old(rooms)
      ensures old(SenderCheck(user, messageId, "edit")).Err? ==>
        r == old(SenderCheck(user, messageId, "edit")) && messages == old(messages)
      ensures old(SenderCheck(user, messageId, "edit")).Ok? ==>
        messages == old(messages)[messageId := Some(old(messages[messageId]).value.(content := newText))]
        && r == Ok(messages[messageId].value)
    {
      var checked := SenderCheck(user, messageId, "edit");
      if checked.Err? {
        return checked;
      }
      messages := messages[messageId := Some(checked.value.(content := newText))];
      r := Ok(checked.value.(content := newText));
    }

    /** deleteMessage (chat.service.ts:259-278): the sender alone may delete, and only that message goes. */
    method DeleteMessage(user: Option<int>, messageId: int) returns (r: Result<string>)
      modifies this
      ensures rooms == old(rooms)
      ensures old(SenderCheck(user, messageId, "delete")).Err? ==>
        r == Err(old(SenderCheck(user, messageId, "delete")).error) && messages == old(messages)
      ensures old(SenderCheck(user, messageId, "delete")).Ok? ==>
        messages == old(messages)[messageId := None] && r == Ok("Message deleted successfully")
    {
      var checked := SenderCheck(user, messageId, "delete");
      if checked.Err? {
        return Err(checked.error);
      }
      messages := messages[messageId := None];
      r := Ok("Message deleted successfully");
    }

    /**
     * reactMessage (chat.service.ts:310-333): the reaction is appended to the
     * list (started when null); repeats are kept.
     */
    method ReactMessage(user: Option<int>, messageId: int, reaction: string) returns (r: Result<Message>)
      modifies this
      ensures rooms == old(rooms) && |messages| == old(|messages|)
      ensures user.None? ==> r == Err(Forbidden("Unauthorized")) && messages == old(messages)
      ensures user.Some? && !(0 <= messageId < old(|messages|) && old(messages[messageId]).Some?) ==>
        r == Err(NotFound("Message not found")) && messages == old(messages)
      ensures user.Some? && 0 <= messageId < old(|messages|) && old(messages[messageId]).Some? ==>
        messages == old(messages)[messageId := Some(WithReaction(old(messages[messageId]).value, Reaction(user.value, reaction)))]
        && r == Ok(messages[messageId].value)
    {
      if user.None? {
        return Err(Forbidden("Unauthorized"));
      }
      if !(0 <= messageId < |messages| && messages[messageId].Some?) {
        return Err(NotFound("Message not found"));
      }
      var m := WithReaction(messages[messageId].value, Reaction(user.value, reaction));
      messages := messages[messageId := Some(m)];
      r := Ok(m);
    }

    /**
     * reactMessage as written: the message is loaded with its room and the
     * room's project only, so after the reaction is saved sendToRoom
     * (chat.service.ts:611-617) reads `id` of the unloaded `receiver` and
     * throws; the caller gets the error although the reaction is stored.
     */
    method ReactMessageAsWritten(user: Option<int>, messageId: int, reaction: string) returns (r: Result<Message>)
      modifies this
      ensures rooms == old(rooms) && |messages| == old(|messages|)
      ensures user.None? ==> r == Err(Forbidden("Unauthorized")) && messages == old(messages)
      ensures user.Some? && !(0 <= messageId < old(|messages|) && old(messages[messageId]).Some?) ==>
        r == Err(NotFound("Message not found")) && messages == old(messages)
      ensures user.Some? && 0 <= messageId < old(|messages|) && old(messages[messageId]).Some? ==>
        messages == old(messages)[messageId := Some(WithReaction(old(messages[messageId]).value, Reaction(user.value, reaction)))]
        && r == Err(TypeError("Cannot read properties of undefined (reading 'id')"))
    {
      if user.None? {
        return Err(Forbidden("Unauthorized"));
      }
      if !(0 <= messageId < |messages| && messages[messageId].Some?) {
        return Err(NotFound("Message not found"));
      }
      var m := WithReaction(messages[messageId].value, Reaction(user.value, reaction));
      messages := messages[messageId := Some(m)];
      r := Err(TypeError("Cannot read properties of undefined (reading 'id')"));
    }
  }

  /** The reactions of a message; a null list reads as empty. */
  function ReactionsOf(m: Message): seq<Reaction>
  {
    if m.reactions.Some? then m.reactions.value else []
  }

  /** The message after one reaction is pushed onto its list (started when null). */
  function WithReaction(m: Message, x: Reaction): (r: Message)
    ensures ReactionsOf(r) == ReactionsOf(m) + [x]
    ensures r.(reactions := m.reactions) == m
  {
    m.(reactions := Some(ReactionsOf(m) + [x]))
  }

  /** The message after the reactions `xs`, one call of reactMessage each. */
  function WithReactions(m: Message, xs: seq<Reaction>): Message
    decreases |xs|
  {
    if |xs| == 0 then m else WithReactions(WithReaction(m, xs[0]), xs[1..])
  }

  /**
   * Reactions accumulate: every reaction is kept, repeats included, in the
   * order they were made, and nothing else of the message changes.
   */
  lemma {:induction false} ReactionsAccumulate(m: Message, xs: seq<Reaction>)
    ensures ReactionsOf(WithReactions(m, xs)) == ReactionsOf(m) + xs
    ensures WithReactions(m, xs).(reactions := m.reactions) == m
    decreases |xs|
  {
    if |xs| > 0 {
      var m1 := WithReaction(m, xs[0]);
      ReactionsAccumulate(m1, xs[1..]);
      assert ReactionsOf(m) + xs == ReactionsOf(m) + [xs[0]] + xs[1..];
    }
  }
}
