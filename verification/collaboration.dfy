/**
 * Collaboration sessions on a project: who collaborates on it in which role,
 * where their cursors are, and the comment threads. The websocket rooms and
 * the notifications the operations send are not part of this model; time is
 * an input (`now`).
 */
module Collaboration {
  import opened Common
  import opened PyStr

  datatype Role = Owner | Editor | Commenter | Viewer

  datatype Collaborator = Collaborator(userId: string, email: string, fullName: string, role: Role,
                                       cursor: Option<map<string, string>>, lastActivity: int, isActive: bool)

  /** A comment; `parentId` names the comment it replies to. */
  datatype Comment = Comment(id: string, userId: string, userName: string, content: string, createdAt: int,
                             updatedAt: Option<int>, parentId: Option<string>, resolved: bool,
                             targetType: string, targetId: string)

  datatype Session = Session(sessionId: string, projectId: string, collaborators: map<string, Collaborator>,
                             comments: seq<Comment>, createdAt: int, lastActivity: int)

  /** The role `join_session` gives when none is named. */
  const DefaultJoinRole := Viewer

  const CommentPrefix := "comment_"

  /** The key of a project's session; the project is what follows the prefix, so distinct projects get distinct keys. */
  function SessionId(projectId: string): (k: string)
    ensures |k| == |projectId| + 7 && k[7..] == projectId
  {
    "collab:" + projectId
  }

  /** The number in a comment id `comment_N` (0 for any other text). */
  function IdNumber(id: string): nat
  {
    if StartsWith(id, CommentPrefix) then DigitsValue(id[|CommentPrefix|..]) else 0
  }

  /** The id of the `n`-th comment; the number reads back, so distinct numbers give distinct ids. */
  function CommentId(n: nat): (id: string)
    ensures IdNumber(id) == n
  {
    NatToStringRoundTrip(n);
    assert (CommentPrefix + NatToString(n))[|CommentPrefix|..] == NatToString(n);
    CommentPrefix + NatToString(n)
  }

  /**
   * The comments of a session carry ids `comment_N`, with N strictly
   * increasing along the list and none beyond the counter.
   */
  predicate Numbered(cs: seq<Comment>, counter: nat)
  {
    && (forall i :: 0 <= i < |cs| ==> cs[i].id == CommentId(IdNumber(cs[i].id)) && IdNumber(cs[i].id) <= counter)
    && (forall i, j :: 0 <= i < j < |cs| ==> IdNumber(cs[i].id) < IdNumber(cs[j].id))
  }

  /** A stored session: under its project's key, with at least one collaborator, each under its own id. */
  predicate SessionOk(k: string, s: Session, counter: nat)
  {
    && s.sessionId == k
    && k == SessionId(s.projectId)
    && s.collaborators != map[]
    && (forall u :: u in s.collaborators ==> s.collaborators[u].userId == u)
    && Numbered(s.comments, counter)
  }

  /** A collaborator as `join_session` and `start_session` create it: no cursor, active, last seen now. */
  function NewCollaborator(userId: string, email: string, fullName: string, role: Role, now: int): (c: Collaborator)
    ensures c.userId == userId && c.role == role && c.cursor.None? && c.isActive
  {
    Collaborator(userId, email, fullName, role, None, now, true)
  }

  /** The session `start_session` creates: the owner as its only collaborator, with role OWNER, and no comments. */
  function NewSession(projectId: string, ownerId: string, email: string, fullName: string, now: int): (s: Session)
    ensures s.sessionId == SessionId(s.projectId) && s.projectId == projectId
    ensures s.collaborators.Keys == {ownerId} && s.collaborators[ownerId].role == Owner
    ensures s.comments == []
  {
    Session(SessionId(projectId), projectId, map[ownerId := NewCollaborator(ownerId, email, fullName, Owner, now)], [], now, now)
  }

  /** The first comment with id `id`, as the loop of `resolve_comment` finds it. */
  function FirstWithId(cs: seq<Comment>, id: string): (r: Option<nat>)
    ensures r.Some? ==> r.value < |cs| && cs[r.value].id == id && forall j :: 0 <= j < r.value ==> cs[j].id != id
    ensures r.None? ==> forall j :: 0 <= j < |cs| ==> cs[j].id != id
  {
    if cs == [] then None
    else if cs[0].id == id then Some(0)
    else match FirstWithId(cs[1..], id)
      case None => None
      case Some(k) => Some(k + 1)
  }

  /** Comment ids are unique within a session, so the first comment with an id is the only one. */
  lemma FirstIsOnly(cs: seq<Comment>, counter: nat, k: nat)
    requires Numbered(cs, counter) && k < |cs|
    ensures FirstWithId(cs, cs[k].id) == Some(k)
    ensures forall j :: 0 <= j < |cs| && j != k ==> cs[j].id != cs[k].id
  {
    forall j | 0 <= j < |cs| && j != k ensures cs[j].id != cs[k].id
    {
      if j < k {
        assert IdNumber(cs[j].id) < IdNumber(cs[k].id);
      } else {
        assert IdNumber(cs[k].id) < IdNumber(cs[j].id);
      }
    }
  }

  /** Raising the counter keeps a numbered list numbered. */
  lemma NumberedGrows(cs: seq<Comment>, counter: nat, counter': nat)
    requires Numbered(cs, counter) && counter <= counter'
    ensures Numbered(cs, counter')
  {
  }

  /** A comment numbered beyond every existing one may be appended. */
  lemma NumberedAppend(cs: seq<Comment>, counter: nat, c: Comment)
    requires Numbered(cs, counter) && c.id == CommentId(counter + 1)
    ensures Numbered(cs + [c], counter + 1)
  {
    var cs' := cs + [c];
    assert IdNumber(c.id) == counter + 1;
    forall i, j | 0 <= i < j < |cs'| ensures IdNumber(cs'[i].id) < IdNumber(cs'[j].id)
    {
      if j < |cs| {
        assert cs'[i] == cs[i] && cs'[j] == cs[j];
      } else {
        assert cs'[i] == cs[i] && cs'[j] == c;
      }
    }
  }

  /** Marking one comment resolved keeps the ids. */
  lemma NumberedResolve(cs: seq<Comment>, counter: nat, k: nat)
    requires Numbered(cs, counter) && k < |cs|
    ensures Numbered(cs[k := cs[k].(resolved := true)], counter)
  {
    var cs' := cs[k := cs[k].(resolved := true)];
    assert forall i :: 0 <= i < |cs| ==> cs'[i].id == cs[i].id;
  }

  // ---------------------------------------------------------------------
  // get_comments

  /** A filter argument counts only when it is given and not empty. */
  predicate Given(v: Option<string>)
  {
    v.Some? && v.value != ""
  }

  predicate TypeOk(c: Comment, targetType: Option<string>) { Given(targetType) ==> c.targetType == targetType.value }

  predicate IdOk(c: Comment, targetId: Option<string>) { Given(targetId) ==> c.targetId == targetId.value }

  predicate ResolvedOk(c: Comment, includeResolved: bool) { includeResolved || !c.resolved }

  /** What `get_comments` keeps: the target type and id when given, and unresolved comments unless resolved ones are asked for. */
  predicate Selected(c: Comment, targetType: Option<string>, targetId: Option<string>, includeResolved: bool)
  {
    TypeOk(c, targetType) && IdOk(c, targetId) && ResolvedOk(c, includeResolved)
  }

  /** The first filter of `get_comments`, on the target type when one is given. */
  function ByType(cs: seq<Comment>, targetType: Option<string>): (r: seq<Comment>)
    ensures r == Filter(cs, (c: Comment) => TypeOk(c, targetType))
  {
    if Given(targetType) then
      var t := targetType.value;
      FilterCongruent(cs, (c: Comment) => c.targetType == t, (c: Comment) => TypeOk(c, targetType));
      Filter(cs, (c: Comment) => c.targetType == t)
    else
      FilterKeepsAll(cs, (c: Comment) => TypeOk(c, targetType));
      cs
  }

  /** The second filter, on the target id when one is given. */
  function ById(cs: seq<Comment>, targetId: Option<string>): (r: seq<Comment>)
    ensures r == Filter(cs, (c: Comment) => IdOk(c, targetId))
  {
    if Given(targetId) then
      var t := targetId.value;
      FilterCongruent(cs, (c: Comment) => c.targetId == t, (c: Comment) => IdOk(c, targetId));
      Filter(cs, (c: Comment) => c.targetId == t)
    else
      FilterKeepsAll(cs, (c: Comment) => IdOk(c, targetId));
      cs
  }

  /** The third filter: resolved comments go unless they are asked for. */
  function ByResolved(cs: seq<Comment>, includeResolved: bool): (r: seq<Comment>)
    ensures r == Filter(cs, (c: Comment) => ResolvedOk(c, includeResolved))
  {
    if !includeResolved then
      FilterCongruent(cs, (c: Comment) => !c.resolved, (c: Comment) => ResolvedOk(c, includeResolved));
      Filter(cs, (c: Comment) => !c.resolved)
    else
      FilterKeepsAll(cs, (c: Comment) => ResolvedOk(c, includeResolved));
      cs
  }

  /** The three filters of `get_comments`, applied one after the other. */
  function SelectComments(cs: seq<Comment>, targetType: Option<string>, targetId: Option<string>, includeResolved: bool): seq<Comment>
  {
    ByResolved(ById(ByType(cs, targetType), targetId), includeResolved)
  }

  /** The filter chain keeps, in order, exactly the comments that pass all three tests. */
  lemma SelectCommentsSpec(cs: seq<Comment>, targetType: Option<string>, targetId: Option<string>, includeResolved: bool)
    ensures SelectComments(cs, targetType, targetId, includeResolved)
            == Filter(cs, (c: Comment) => Selected(c, targetType, targetId, includeResolved))
  {
    var pt := (c: Comment) => TypeOk(c, targetType);
    var pi := (c: Comment) => IdOk(c, targetId);
    var pti := (c: Comment) => TypeOk(c, targetType) && IdOk(c, targetId);
    FilterFilter(cs, pt, pi, pti);
    FilterFilter(cs, pti, (c: Comment) => ResolvedOk(c, includeResolved), (c: Comment) => Selected(c, targetType, targetId, includeResolved));
  }

  /** `notify_note_update`'s preview: the first 200 characters of the note. */
  function NotePreview(note: string): (r: string)
    ensures |r| <= 200 && |r| <= |note| && r == note[..|r|]
    ensures |note| <= 200 ==> r == note
    ensures |note| > 200 ==> |r| == 200
  {
    Take(note, 200)
  }

  // ---------------------------------------------------------------------
  // The service

  class CollaborationService {
    /** The sessions by key `collab:<project>`. */
    var sessions: map<string, Session>
    /** The number of comments ever added, across all projects. */
    var commentCounter: nat

    ghost predicate Valid()
      reads this
    {
      forall k :: k in sessions ==> SessionOk(k, sessions[k], commentCounter)
    }

    constructor()
      ensures sessions == map[] && commentCounter == 0 && Valid()
    {
      sessions := map[];
      commentCounter := 0;
    }

    /**
     * `start_session`: the project's existing session, unchanged; otherwise a
     * new one with the owner as its only collaborator.
     */
    method StartSession(projectId: string, ownerId: string, ownerEmail: string, ownerName: string, now: int)
      returns (s: Session)
      modifies this
      ensures commentCounter == old(commentCounter)
      ensures SessionId(projectId) in old(sessions) ==> s == old(sessions)[SessionId(projectId)] && sessions == old(sessions)
      ensures SessionId(projectId) !in old(sessions) ==>
                s == NewSession(projectId, ownerId, ownerEmail, ownerName, now)
                && sessions == old(sessions)[SessionId(projectId) := s]
      ensures SessionId(projectId) in sessions && sessions[SessionId(projectId)] == s
      ensures old(Valid()) ==> Valid()
    {
      var k := SessionId(projectId);
      if k in sessions {
        return sessions[k];
      }
      s := NewSession(projectId, ownerId, ownerEmail, ownerName, now);
      sessions := sessions[k := s];
    }

    /** `join_session`: None without a session; otherwise the user is added, or replaced, with the given role. */
    method JoinSession(projectId: string, userId: string, email: string, fullName: string, role: Role, now: int)
      returns (r: Option<Session>)
      modifies this
      ensures commentCounter == old(commentCounter)
      ensures SessionId(projectId) !in old(sessions) ==> r.None? && sessions == old(sessions)
      ensures SessionId(projectId) in old(sessions) ==>
                var s := old(sessions)[SessionId(projectId)];
                var s' := s.(collaborators := s.collaborators[userId := NewCollaborator(userId, email, fullName, role, now)]);
                r == Some(s') && sessions == old(sessions)[SessionId(projectId) := s']
      ensures old(Valid()) ==> Valid()
    {
      var k := SessionId(projectId);
      if k !in sessions {
        return None;
      }
      var s := sessions[k];
      s := s.(collaborators := s.collaborators[userId := NewCollaborator(userId, email, fullName, role, now)]);
      sessions := sessions[k := s];
      r := Some(s);
    }

    /**
     * `leave_session`: the user is removed if present, and the session is
     * deleted once it has no collaborators left.
     */
    method LeaveSession(projectId: string, userId: string)
      modifies this
      ensures commentCounter == old(commentCounter)
      ensures SessionId(projectId) !in old(sessions) ==> sessions == old(sessions)
      ensures SessionId(projectId) in old(sessions) ==>
                var s := old(sessions)[SessionId(projectId)];
                var left := s.collaborators - {userId};
                sessions == if left == map[] then old(sessions) - {SessionId(projectId)}
                            else old(sessions)[SessionId(projectId) := s.(collaborators := left)]
      ensures (old(Valid()) && (SessionId(projectId) !in old(sessions)
                                || userId !in old(sessions)[SessionId(projectId)].collaborators)) ==> sessions == old(sessions)
      ensures old(Valid()) ==> Valid()
    {
      var k := SessionId(projectId);
      if k !in sessions {
        return;
      }
      var s := sessions[k];
      if userId in s.collaborators {
        s := s.(collaborators := s.collaborators - {userId});
        sessions := sessions[k := s];
      } else {
        assert s.collaborators - {userId} == s.collaborators;
        assert sessions[k := s] == sessions;
      }
      if s.collaborators == map[] {
        sessions := sessions - {k};
      }
    }

    /** `update_cursor`: for a collaborator of an existing session, the cursor and both last-activity times change; nothing else does. */
    method UpdateCursor(projectId: string, userId: string, cursor: map<string, string>, now: int)
      modifies this
      ensures commentCounter == old(commentCounter)
      ensures SessionId(projectId) !in old(sessions) || userId !in old(sessions)[SessionId(projectId)].collaborators
              ==> sessions == old(sessions)
      ensures SessionId(projectId) in old(sessions) && userId in old(sessions)[SessionId(projectId)].collaborators ==>
                var s := old(sessions)[SessionId(projectId)];
                var c := s.collaborators[userId].(cursor := Some(cursor), lastActivity := now);
                sessions == old(sessions)[SessionId(projectId) := s.(collaborators := s.collaborators[userId := c], lastActivity := now)]
      ensures old(Valid()) ==> Valid()
    {
      var k := SessionId(projectId);
      if k !in sessions {
        return;
      }
      var s := sessions[k];
      if userId in s.collaborators {
        var c := s.collaborators[userId].(cursor := Some(cursor), lastActivity := now);
        sessions := sessions[k := s.(collaborators := s.collaborators[userId := c], lastActivity := now)];
      }
    }

    /**
     * `add_comment`: the counter goes up whether or not the project has a
     * session, and the comment, numbered by it, is stored only when it has.
     */
    method AddComment(projectId: string, userId: string, userName: string, content: string, targetType: string,
                      targetId: string, parentId: Option<string>, now: int)
      returns (c: Comment)
      modifies this
      ensures commentCounter == old(commentCounter) + 1
      ensures c == Comment(CommentId(commentCounter), userId, userName, content, now, None, parentId, false, targetType, targetId)
      ensures SessionId(projectId) !in old(sessions) ==> sessions == old(sessions)
      ensures SessionId(projectId) in old(sessions) ==>
                var s := old(sessions)[SessionId(projectId)];
                sessions == old(sessions)[SessionId(projectId) := s.(comments := s.comments + [c])]
      ensures old(Valid()) ==> Valid()
      ensures old(Valid()) ==> forall k, i :: k in old(sessions) && 0 <= i < |old(sessions)[k].comments|
                                            ==> IdNumber(old(sessions)[k].comments[i].id) < IdNumber(c.id)
    {
      ghost var valid0 := Valid();
      commentCounter := commentCounter + 1;
      c := Comment(CommentId(commentCounter), userId, userName, content, now, None, parentId, false, targetType, targetId);
      var k := SessionId(projectId);
      if k in sessions {
        if valid0 {
          NumberedAppend(sessions[k].comments, commentCounter - 1, c);
        }
        sessions := sessions[k := sessions[k].(comments := sessions[k].comments + [c])];
      }
      if valid0 {
        forall k' | k' in sessions && k' != k ensures SessionOk(k', sessions[k'], commentCounter)
        {
          NumberedGrows(sessions[k'].comments, commentCounter - 1, commentCounter);
        }
        if k !in sessions {
          assert Valid();
        }
      }
    }

    /**
     * `resolve_comment`: the first comment of the session with that id is
     * marked resolved; False when there is no session or no such comment.
     */
    method ResolveComment(projectId: string, commentId: string) returns (found: bool)
      modifies this
      ensures commentCounter == old(commentCounter)
      ensures SessionId(projectId) !in old(sessions) ==> !found && sessions == old(sessions)
      ensures SessionId(projectId) in old(sessions) ==>
                var cs := old(sessions)[SessionId(projectId)].comments;
                match FirstWithId(cs, commentId)
                case None => !found && sessions == old(sessions)
                case Some(i) =>
                  found && sessions == old(sessions)[SessionId(projectId) :=
                                                     old(sessions)[SessionId(projectId)].(comments := cs[i := cs[i].(resolved := true)])]
      ensures old(Valid()) ==> Valid()
    {
      var k := SessionId(projectId);
      if k !in sessions {
        return false;
      }
      var cs := sessions[k].comments;
      var i := 0;
      while i < |cs|
        invariant 0 <= i <= |cs|
        invariant forall j :: 0 <= j < i ==> cs[j].id != commentId
        invariant sessions == old(sessions)
      {
        if cs[i].id == commentId {
          assert FirstWithId(cs, commentId) == Some(i);
          if Valid() {
            NumberedResolve(cs, commentCounter, i);
          }
          sessions := sessions[k := sessions[k].(comments := cs[i := cs[i].(resolved := true)])];
          return true;
        }
        i := i + 1;
      }
      return false;
    }

    /** `get_session`: a stored session belongs to the project asked for. */
    function GetSession(projectId: string): (r: Option<Session>)
      reads this
      ensures r.Some? <==> SessionId(projectId) in sessions
      ensures Valid() && r.Some? ==> r.value.projectId == projectId && r.value.collaborators != map[]
    {
      if SessionId(projectId) in sessions then Some(sessions[SessionId(projectId)]) else None
    }

    /** `get_active_collaborators`: none without a session; otherwise every collaborator, each under its own id. */
    function ActiveCollaborators(projectId: string): (r: set<Collaborator>)
      reads this
      ensures SessionId(projectId) !in sessions ==> r == {}
      ensures SessionId(projectId) in sessions ==>
                forall u :: u in sessions[SessionId(projectId)].collaborators ==> sessions[SessionId(projectId)].collaborators[u] in r
      ensures Valid() ==> forall c :: c in r ==> c.userId in sessions[SessionId(projectId)].collaborators
                                                 && sessions[SessionId(projectId)].collaborators[c.userId] == c
    {
      match GetSession(projectId)
      case None => {}
      case Some(s) => s.collaborators.Values
    }

    /** `get_comments`: none without a session; otherwise, in order, the comments passing the filters. */
    function GetComments(projectId: string, targetType: Option<string>, targetId: Option<string>, includeResolved: bool)
      : (r: seq<Comment>)
      reads this
      ensures SessionId(projectId) !in sessions ==> r == []
      ensures SessionId(projectId) in sessions ==>
                r == Filter(sessions[SessionId(projectId)].comments, (c: Comment) => Selected(c, targetType, targetId, includeResolved))
    {
      match GetSession(projectId)
      case None => []
      case Some(s) =>
        SelectCommentsSpec(s.comments, targetType, targetId, includeResolved);
        SelectComments(s.comments, targetType, targetId, includeResolved)
    }
  }

  /** Two comments ever added carry different ids: the counter only grows and the number reads back from the id. */
  lemma CommentIdsDistinct(a: nat, b: nat)
    requires a != b
    ensures CommentId(a) != CommentId(b)
  {
    assert IdNumber(CommentId(a)) == a;
  }
}
