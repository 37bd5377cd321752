/**
 * CommentService: comments on a project, replies to comments, and
 * moderation of a comment's status by the project's creator.
 */
module Comments {
  import opened Domain

  type CommentId = Uuid

  datatype CommentStatus = Active | Hidden

  /** `CommentStatus.valueOf(name)`: the constant with that exact name, or an IllegalArgumentException. */
  function ParseCommentStatus(name: string): (r: Result<CommentStatus>)
    ensures r.Ok? <==> name in {"ACTIVE", "HIDDEN"}
    ensures r.Ok? ==> (r.value == CommentStatus.Active <==> name == "ACTIVE")
    ensures r.Err? ==> r.error == IllegalArgument("No enum constant com.creatorfund.model.CommentStatus." + name)
  {
    if name == "ACTIVE" then Ok(CommentStatus.Active)
    else if name == "HIDDEN" then Ok(Hidden)
    else Err(IllegalArgument("No enum constant com.creatorfund.model.CommentStatus." + name))
  }

  /** A Comments row; `parent` is the nullable parent_comment_id. */
  datatype Comment = Comment(id: CommentId, user: UserId, project: ProjectId, parent: Option<CommentId>,
                             content: string, status: CommentStatus)

  datatype CommentRequest = CommentRequest(content: string, projectId: ProjectId, parentCommentId: Option<CommentId>)

  /**
   * validateParentComment exactly as written: a parent from another project
   * fails with "Parent comment must belong to the same project", and every
   * other parent fails with "Cannot reply to an inactive comment", whatever
   * its status.
   */
  function ValidateParentComment(parent: Comment, projectId: ProjectId): (r: Outcome)
    ensures r.Fail?
    ensures parent.project != projectId ==> r.error == Validation("Parent comment must belong to the same project")
    ensures parent.project == projectId ==> r.error == Validation("Cannot reply to an inactive comment")
  {
    if parent.project != projectId then Fail(Validation("Parent comment must belong to the same project"))
    else Fail(Validation("Cannot reply to an inactive comment"))
  }

  /**
   * The reply scenario of the service's own unit test: an ACTIVE parent on
   * the same project. As written it is refused as "inactive".
   */
  lemma ActiveParentOnSameProjectRefused()
    ensures var parent := Comment(1, 2, 3, None, "Great project!", CommentStatus.Active);
      ValidateParentComment(parent, 3) == Fail(Validation("Cannot reply to an inactive comment"))
  {
  }

  /** validateModerator: only the project's creator may moderate. */
  function ValidateModerator(moderatorId: UserId, project: Project): (r: Outcome)
    ensures r.Pass? <==> project.creator == moderatorId
    ensures r.Fail? ==> r.error == Validation("User is not authorized to moderate comments")
  {
    if project.creator == moderatorId then Pass
    else Fail(Validation("User is not authorized to moderate comments"))
  }

  class CommentService {
    var comments: seq<Comment>
    var projects: map<ProjectId, Project>
    var users: set<UserId>
    ghost var notifications: seq<Notification>

    /** Comment ids are unique and every comment's project is stored. */
    ghost predicate Valid()
      reads this
    {
      && (forall i, j :: 0 <= i < j < |comments| ==> comments[i].id != comments[j].id)
      && (forall i :: 0 <= i < |comments| ==> comments[i].project in projects)
    }

    constructor (initialProjects: map<ProjectId, Project>, initialUsers: set<UserId>)
      ensures Valid() && comments == [] && notifications == []
      ensures projects == initialProjects && users == initialUsers
    {
      comments := [];
      projects := initialProjects;
      users := initialUsers;
      notifications := [];
    }

    /** findById on the comment table. */
    function Find(id: CommentId): (r: Option<nat>)
      reads this
      ensures r.Some? ==> r.value < |comments| && comments[r.value].id == id
      ensures r.None? <==> forall j :: 0 <= j < |comments| ==> comments[j].id != id
    {
      FirstIndex(comments, (c: Comment) => c.id == id)
    }

    /**
     * The checks of createComment, in order: "User not found", "Project not
     * found", "Parent comment not found", then the parent check. Because
     * the parent check never passes, no request naming a parent gets
     * through.
     */
    function CheckComment(request: CommentRequest, userId: UserId): (r: Outcome)
      reads this
      ensures userId !in users ==> r == Fail(NotFound("User not found"))
      ensures userId in users && request.projectId !in projects ==> r == Fail(NotFound("Project not found"))
      ensures (userId in users && request.projectId in projects && request.parentCommentId.Some?
               && Find(request.parentCommentId.value).None?) ==>
        r == Fail(NotFound("Parent comment not found"))
      ensures r.Pass? <==> userId in users && request.projectId in projects && request.parentCommentId.None?
    {
      if userId !in users then Fail(NotFound("User not found"))
      else if request.projectId !in projects then Fail(NotFound("Project not found"))
      else match request.parentCommentId
        case None => Pass
        case Some(parentId) =>
          match Find(parentId)
          case None => Fail(NotFound("Parent comment not found"))
          case Some(k) => ValidateParentComment(comments[k], request.projectId)
    }

    /**
     * createComment: on success one ACTIVE root comment by the user is
     * stored and the project's creator gets one NEW_COMMENT notice about it.
     * The reply notice of the source cannot be reached, since no reply is
     * ever accepted.
     */
    method CreateComment(request: CommentRequest, userId: UserId, newId: CommentId) returns (r: Result<CommentId>)
      requires Valid()
      requires Find(newId).None?
      modifies this
      ensures Valid() && projects == old(projects) && users == old(users)
      ensures r.Ok? <==> old(CheckComment(request, userId)).Pass?
      ensures r.Err? ==> Fail(r.error) == old(CheckComment(request, userId))
      ensures r.Err? ==> comments == old(comments) && notifications == old(notifications)
      ensures r.Ok? ==> r.value == newId && request.parentCommentId.None?
      ensures r.Ok? ==>
        comments == old(comments) + [Comment(newId, userId, request.projectId, None, request.content, CommentStatus.Active)]
      ensures r.Ok? ==>
        notifications == old(notifications) + [Notification(projects[request.projectId].creator, NewComment, newId)]
    {
      var check := CheckComment(request, userId);
      if check.Fail? {
        return Err(check.error);
      }
      comments := comments + [Comment(newId, userId, request.projectId, None, request.content, CommentStatus.Active)];
      notifications := notifications + [Notification(projects[request.projectId].creator, NewComment, newId)];
      r := Ok(newId);
    }

    /**
     * updateCommentStatus: "Comment not found", the moderator check against
     * the comment's project, then the status name; on success that comment's
     * status alone changes.
     */
    method UpdateCommentStatus(commentId: CommentId, status: string, moderatorId: UserId) returns (r: Outcome)
      requires Valid()
      modifies this
      ensures Valid() && projects == old(projects) && users == old(users) && notifications == old(notifications)
      ensures old(Find(commentId)).None? ==> r == Fail(NotFound("Comment not found"))
      ensures old(Find(commentId)).Some? ==>
        var c := old(comments)[old(Find(commentId)).value];
        && (projects[c.project].creator != moderatorId ==> r == Fail(Validation("User is not authorized to moderate comments")))
        && (r.Pass? <==> projects[c.project].creator == moderatorId && ParseCommentStatus(status).Ok?)
        && (projects[c.project].creator == moderatorId && ParseCommentStatus(status).Err? ==>
              r == Fail(IllegalArgument("No enum constant com.creatorfund.model.CommentStatus." + status)))
      ensures r.Fail? ==> comments == old(comments)
      ensures r.Pass? ==>
        var i := old(Find(commentId)).value;
        comments == old(comments)[i := old(comments)[i].(status := ParseCommentStatus(status).value)]
    {
      var found := Find(commentId);
      if found.None? {
        return Fail(NotFound("Comment not found"));
      }
      var i := found.value;
      r := ValidateModerator(moderatorId, projects[comments[i].project]);
      if r.Fail? {
        return;
      }
      var parsed := ParseCommentStatus(status);
      if parsed.Err? {
        return Fail(parsed.error);
      }
      comments := comments[i := comments[i].(status := parsed.value)];
    }

    /** getProjectComments, without paging. */
    method GetProjectComments(projectId: ProjectId) returns (result: seq<Comment>)
      ensures forall c :: c in result <==> c in comments && c.project == projectId
    {
      result := Filter(comments, (c: Comment) => c.project == projectId);
    }

    /** getRootComments: the project's comments without a parent. */
    method GetRootComments(projectId: ProjectId) returns (result: seq<Comment>)
      ensures forall c :: c in result <==> c in comments && c.project == projectId && c.parent.None?
    {
      result := Filter(comments, (c: Comment) => c.project == projectId && c.parent.None?);
    }

    /** getCommentReplies: the comments whose parent is the given one. */
    method GetCommentReplies(commentId: CommentId) returns (result: seq<Comment>)
      ensures forall c :: c in result <==> c in comments && c.parent == Some(commentId)
    {
      result := Filter(comments, (c: Comment) => c.parent == Some(commentId));
    }
  }
}
