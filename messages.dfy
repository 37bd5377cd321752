/**
 * MessageService: direct and project messages between users, the access
 * checks on them, and marking messages read.
 */
module Messages {
  import opened Domain

  type MessageId = Uuid

  /** A Message row; `project` is the nullable project_id. */
  datatype Message = Message(id: MessageId, sender: UserId, recipient: UserId, project: Option<ProjectId>,
                             content: string, readStatus: bool)

  datatype MessageRequest = MessageRequest(content: string, recipientId: UserId, projectId: Option<ProjectId>)

  // ---------------------------------------------------------------------
  // Validators
  // ---------------------------------------------------------------------

  /**
   * validateUsers: a user cannot hold a conversation with themselves, and
   * the other user must exist.
   */
  function ValidateUsers(users: set<UserId>, userId: UserId, otherUserId: UserId): (r: Outcome)
    ensures r.Pass? <==> userId != otherUserId && otherUserId in users
    ensures userId == otherUserId ==> r == Fail(Validation("Cannot message yourself"))
    ensures userId != otherUserId && otherUserId !in users ==> r == Fail(NotFound("Other user not found"))
  {
    if userId == otherUserId then Fail(Validation("Cannot message yourself"))
    else if otherUserId !in users then Fail(NotFound("Other user not found"))
    else Pass
  }

  /** validateProjectAccess: sender and recipient must each be the creator or on the team. */
  function ValidateProjectAccess(projectId: ProjectId, project: Project, team: seq<TeamMember>,
                                 sender: UserId, recipient: UserId): (r: Outcome)
    ensures r.Pass? <==> IsCreatorOrMember(projectId, project, team, sender) && IsCreatorOrMember(projectId, project, team, recipient)
    ensures r.Fail? ==> r.error == Validation("One or both users do not have access to this project")
  {
    if !IsCreatorOrMember(projectId, project, team, sender) || !IsCreatorOrMember(projectId, project, team, recipient) then
      Fail(Validation("One or both users do not have access to this project"))
    else
      Pass
  }

  /** validateProjectMembership: the reader must be the creator or on the team. */
  function ValidateProjectMembership(projectId: ProjectId, project: Project, team: seq<TeamMember>, userId: UserId): (r: Outcome)
    ensures r.Pass? <==> IsCreatorOrMember(projectId, project, team, userId)
    ensures r.Fail? ==> r.error == Validation("User is not a member of this project")
  {
    if !IsCreatorOrMember(projectId, project, team, userId) then Fail(Validation("User is not a member of this project"))
    else Pass
  }

  // ---------------------------------------------------------------------
  // Conversations
  // ---------------------------------------------------------------------

  /** The message goes between `a` and `b`, in either direction. */
  predicate Between(m: Message, a: UserId, b: UserId)
  {
    (m.sender == a && m.recipient == b) || (m.sender == b && m.recipient == a)
  }

  /** findConversation: the stored messages between two users, in either direction. */
  function Conversation(messages: seq<Message>, a: UserId, b: UserId): (r: seq<Message>)
    ensures forall m :: m in r <==> m in messages && Between(m, a, b)
  {
    Filter(messages, (m: Message) => Between(m, a, b))
  }

  /** A conversation is the same whichever participant asks. */
  lemma ConversationSymmetric(messages: seq<Message>, a: UserId, b: UserId)
    ensures Conversation(messages, a, b) == Conversation(messages, b, a)
  {
    FilterCongruent(messages, (m: Message) => Between(m, a, b), (m: Message) => Between(m, b, a));
  }

  /** The message is one the bulk update of markConversationAsRead marks. */
  predicate MarkedBy(m: Message, userId: UserId, otherUserId: UserId)
  {
    m.recipient == userId && m.sender == otherUserId
  }

  /**
   * The store after markConversationAsRead: the messages that `otherUserId`
   * sent to `userId` are read, and nothing else changes (in particular the
   * messages `userId` sent keep their read status).
   */
  function MarkedConversationRead(messages: seq<Message>, userId: UserId, otherUserId: UserId): (r: seq<Message>)
    ensures |r| == |messages|
    ensures forall i :: 0 <= i < |r| ==> r[i].readStatus == (messages[i].readStatus || MarkedBy(messages[i], userId, otherUserId))
    ensures forall i :: 0 <= i < |r| ==> r[i].(readStatus := messages[i].readStatus) == messages[i]
  {
    seq(|messages|, i requires 0 <= i < |messages| =>
      if MarkedBy(messages[i], userId, otherUserId) then messages[i].(readStatus := true) else messages[i])
  }

  /** After the bulk update, every message of the conversation addressed to `userId` is read. */
  lemma MarkConversationReadsIncoming(messages: seq<Message>, userId: UserId, otherUserId: UserId)
    ensures forall m :: (m in Conversation(MarkedConversationRead(messages, userId, otherUserId), userId, otherUserId) &&
                         m.recipient == userId) ==> m.readStatus
  {
    var r := MarkedConversationRead(messages, userId, otherUserId);
    forall m | m in Conversation(r, userId, otherUserId) && m.recipient == userId
      ensures m.readStatus
    {
      var i :| 0 <= i < |r| && r[i] == m;
      if !MarkedBy(messages[i], userId, otherUserId) {
        assert r[i] == messages[i];
      }
    }
  }

  // ---------------------------------------------------------------------
  // The service
  // ---------------------------------------------------------------------

  class MessageService {
    var messages: seq<Message>
    var users: set<UserId>
    var projects: map<ProjectId, Project>
    /** The project_team table, read through Project.getProjectTeam(). */
    var team: seq<TeamMember>
    ghost var notifications: seq<Notification>

    /** Message ids are unique. */
    ghost predicate Valid()
      reads this
    {
      forall i, j :: 0 <= i < j < |messages| ==> messages[i].id != messages[j].id
    }

    constructor (initialUsers: set<UserId>, initialProjects: map<ProjectId, Project>, initialTeam: seq<TeamMember>)
      ensures Valid() && messages == [] && notifications == []
      ensures users == initialUsers && projects == initialProjects && team == initialTeam
    {
      messages := [];
      users := initialUsers;
      projects := initialProjects;
      team := initialTeam;
      notifications := [];
    }

    /** findById on the message store. */
    function Find(id: MessageId): (r: Option<nat>)
      reads this
      ensures r.Some? ==> r.value < |messages| && messages[r.value].id == id
      ensures r.None? <==> forall j :: 0 <= j < |messages| ==> messages[j].id != id
    {
      FirstIndex(messages, (m: Message) => m.id == id)
    }

    /** The checks of sendMessage, in order; without a project no access check is made. */
    function CheckSend(request: MessageRequest, senderId: UserId): (r: Outcome)
      reads this
      ensures senderId !in users ==> r == Fail(NotFound("Sender not found"))
      ensures senderId in users && request.recipientId !in users ==> r == Fail(NotFound("Recipient not found"))
      ensures senderId in users && request.recipientId in users && request.projectId.None? ==> r.Pass?
      ensures (senderId in users && request.recipientId in users && request.projectId.Some? &&
               request.projectId.value !in projects) ==> r == Fail(NotFound("Project not found"))
      ensures senderId in users && request.recipientId in users && request.projectId.Some? ==>
        (r.Pass? <==>
           && request.projectId.value in projects
           && IsCreatorOrMember(request.projectId.value, projects[request.projectId.value], team, senderId)
           && IsCreatorOrMember(request.projectId.value, projects[request.projectId.value], team, request.recipientId))
    {
      if senderId !in users then Fail(NotFound("Sender not found"))
      else if request.recipientId !in users then Fail(NotFound("Recipient not found"))
      else if request.projectId.None? then Pass
      else if request.projectId.value !in projects then Fail(NotFound("Project not found"))
      else ValidateProjectAccess(request.projectId.value, projects[request.projectId.value], team, senderId, request.recipientId)
    }

    /**
     * sendMessage: on success one unread message is appended and its
     * recipient gets one NEW_MESSAGE notification; otherwise nothing changes.
     */
    method SendMessage(request: MessageRequest, senderId: UserId, newId: MessageId) returns (r: Result<MessageId>)
      requires Valid()
      requires forall j :: 0 <= j < |messages| ==> messages[j].id != newId
      modifies this
      ensures Valid() && users == old(users) && projects == old(projects) && team == old(team)
      ensures r.Err? <==> old(CheckSend(request, senderId)).Fail?
      ensures r.Err? ==> r.error == old(CheckSend(request, senderId)).error
      ensures r.Err? ==> messages == old(messages) && notifications == old(notifications)
      ensures r.Ok? ==> r.value == newId
      ensures r.Ok? ==> messages == old(messages) + [Message(newId, senderId, request.recipientId, request.projectId, request.content, false)]
      ensures r.Ok? ==> notifications == old(notifications) + [Notification(request.recipientId, NewMessage, newId)]
    {
      var check := CheckSend(request, senderId);
      if check.Fail? {
        return Err(check.error);
      }
      messages := messages + [Message(newId, senderId, request.recipientId, request.projectId, request.content, false)];
      notifications := notifications + [Notification(request.recipientId, NewMessage, newId)];
      r := Ok(newId);
    }

    /** getConversationMessages: validateUsers, then the conversation. */
    method GetConversationMessages(userId: UserId, otherUserId: UserId) returns (r: Result<seq<Message>>)
      ensures r.Err? <==> ValidateUsers(users, userId, otherUserId).Fail?
      ensures r.Err? ==> r.error == ValidateUsers(users, userId, otherUserId).error
      ensures r.Ok? ==> forall m :: m in r.value <==> m in messages && Between(m, userId, otherUserId)
    {
      var check := ValidateUsers(users, userId, otherUserId);
      if check.Fail? {
        return Err(check.error);
      }
      r := Ok(Conversation(messages, userId, otherUserId));
    }

    /** getProjectMessages: "Project not found", the membership check, then the project's messages. */
    method GetProjectMessages(projectId: ProjectId, userId: UserId) returns (r: Result<seq<Message>>)
      ensures projectId !in projects ==> r == Err(NotFound("Project not found"))
      ensures projectId in projects ==> (r.Ok? <==> IsCreatorOrMember(projectId, projects[projectId], team, userId))
      ensures projectId in projects && r.Err? ==> r.error == Validation("User is not a member of this project")
      ensures r.Ok? ==> forall m :: m in r.value <==> m in messages && m.project == Some(projectId)
    {
      if projectId !in projects {
        return Err(NotFound("Project not found"));
      }
      var check := ValidateProjectMembership(projectId, projects[projectId], team, userId);
      if check.Fail? {
        return Err(check.error);
      }
      r := Ok(Filter(messages, (m: Message) => m.project == Some(projectId)));
    }

    /**
     * markAsRead: "Message not found"; only the recipient may mark it, and
     * then that message alone becomes read.
     */
    method MarkAsRead(messageId: MessageId, userId: UserId) returns (r: Outcome)
      requires Valid()
      modifies this
      ensures Valid() && users == old(users) && projects == old(projects) && team == old(team)
      ensures notifications == old(notifications)
      ensures old(Find(messageId)).None? ==> r == Fail(NotFound("Message not found"))
      ensures old(Find(messageId)).Some? ==> (r.Pass? <==> old(messages)[old(Find(messageId)).value].recipient == userId)
      ensures old(Find(messageId)).Some? && r.Fail? ==> r.error == Validation("Not authorized to mark this message as read")
      ensures r.Fail? ==> messages == old(messages)
      ensures r.Pass? ==>
        var i := old(Find(messageId)).value;
        messages == old(messages)[i := old(messages)[i].(readStatus := true)]
    {
      var found := Find(messageId);
      if found.None? {
        return Fail(NotFound("Message not found"));
      }
      var i := found.value;
      if messages[i].recipient != userId {
        return Fail(Validation("Not authorized to mark this message as read"));
      }
      messages := messages[i := messages[i].(readStatus := true)];
      r := Pass;
    }

    /** markConversationAsRead: validateUsers, then the bulk update. */
    method MarkConversationAsRead(userId: UserId, otherUserId: UserId) returns (r: Outcome)
      requires Valid()
      modifies this
      ensures Valid() && users == old(users) && projects == old(projects) && team == old(team)
      ensures notifications == old(notifications)
      ensures r == ValidateUsers(users, userId, otherUserId)
      ensures r.Fail? ==> messages == old(messages)
      ensures r.Pass? ==> messages == MarkedConversationRead(old(messages), userId, otherUserId)
    {
      r := ValidateUsers(users, userId, otherUserId);
      if r.Fail? {
        return;
      }
      messages := MarkedConversationRead(messages, userId, otherUserId);
    }
  }
}
