/** durable_state.py and state_persistence.py: the one authoritative state comment, and the
    optimistic precondition every writer must meet. */
module StateLedger {
  import opened Prelude
  import opened Records
  import opened Diagnosis
  import opened DurableState

  /** A comment of the controller issue; it carries a state when it has the state marker. */
  datatype Comment = Comment(id: int, body: Option<State>)

  /** The comments are always read as one page, the oldest first. */
  const PAGE := 100

  function Page(comments: seq<Comment>): seq<Comment> {
    if |comments| <= PAGE then comments else comments[..PAGE]
  }

  datatype Method = POST | PATCH

  datatype WriteRequest = WriteRequest(
    httpMethod: Method, commentId: Option<int>, body: State,
    expectedPreviousRevision: Option<nat>, expectedRevision: nat, researchId: string)

  function StateComments(comments: seq<Comment>): (found: seq<Comment>)
    ensures forall c :: c in found <==> c in comments && c.body.Some?
  {
    if comments == [] then []
    else (if comments[0].body.Some? then [comments[0]] else []) + StateComments(comments[1..])
  }

  function FindStateComment(comments: seq<Comment>): Result<Option<Comment>> {
    var matches := StateComments(comments);
    if |matches| > 1 then Err("multiple authoritative controller state comments")
    else if matches == [] then Ok(None)
    else Ok(Some(matches[0]))
  }

  function LoadStateComment(comments: seq<Comment>): Result<Option<State>> {
    match FindStateComment(comments)
    case Err(e) => Err(e)
    case Ok(comment) => Ok(if comment.None? then None else comment.value.body)
  }

  /** A later revision of the same workload, or another workload after terminal proof. */
  function RequireFreshWrite(current: Option<State>, proposed: State): Guard {
    if current.None? then Pass
    else if current.value.researchId != proposed.researchId then
      Need(CanRolloverState(current.value), "cannot overwrite a different research state before terminal completion")
    else Need(proposed.revision > current.value.revision, "stale controller state revision")
  }

  function StateWriteRequest(comments: seq<Comment>, proposed: State): Result<WriteRequest> {
    match FindStateComment(comments)
    case Err(e) => Err(e)
    case Ok(None) => Ok(WriteRequest(POST, None, proposed, None, proposed.revision, proposed.researchId))
    case Ok(Some(comment)) =>
      match RequireFreshWrite(comment.body, proposed)
      case Fail(e) => Err(e)
      case Pass =>
        Ok(WriteRequest(PATCH, Some(comment.id), proposed,
                        if comment.body.Some? then Some(comment.body.value.revision) else None,
                        proposed.revision, proposed.researchId))
  }

  function ValidateStateWritePrecondition(comments: seq<Comment>, request: WriteRequest): Guard {
    if request.body.researchId != request.researchId || request.body.revision != request.expectedRevision then
      Fail("durable state write request payload mismatch")
    else
      match FindStateComment(comments)
      case Err(e) => Fail(e)
      case Ok(None) =>
        if request.expectedPreviousRevision.Some? then Fail("stale durable state create precondition")
        else Need(request.httpMethod == POST && request.commentId.None?, "durable state create request is inconsistent")
      case Ok(Some(comment)) =>
        if comment.body.None? then Fail("controller state marker missing")
        else ValidateUpdate(comment.id, comment.body.value, request)
  }

  function ValidateUpdate(id: int, current: State, request: WriteRequest): Guard {
    if request.expectedPreviousRevision.None? then Fail("stale durable state create precondition")
    else if !(request.httpMethod == PATCH && request.commentId == Some(id)) then Fail("durable state update target changed")
    else if request.expectedPreviousRevision.value != current.revision then Fail("stale durable state precondition")
    else RequireFreshWrite(Some(current), request.body)
  }

  // ---------- the comments after a write ----------

  function Patch(comments: seq<Comment>, id: int, body: State): (patched: seq<Comment>)
    ensures |patched| == |comments|
    ensures forall i :: 0 <= i < |comments| ==> patched[i].id == comments[i].id
  {
    if comments == [] then []
    else [if comments[0].id == id then Comment(id, Some(body)) else comments[0]] + Patch(comments[1..], id, body)
  }

  /** What GitHub stores for a request. */
  function Written(comments: seq<Comment>, request: WriteRequest, newId: int): seq<Comment> {
    if request.httpMethod == POST then comments + [Comment(newId, Some(request.body))]
    else if request.commentId.Some? then Patch(comments, request.commentId.value, request.body)
    else comments
  }

  ghost predicate DistinctIds(comments: seq<Comment>) {
    forall i, j :: 0 <= i < j < |comments| ==> comments[i].id != comments[j].id
  }

  lemma {:induction false} PatchMisses(comments: seq<Comment>, id: int, body: State)
    requires forall c :: c in comments ==> c.id != id
    ensures Patch(comments, id, body) == comments
  {
    if comments != [] {
      PatchMisses(comments[1..], id, body);
    }
  }

  lemma {:induction false} PatchReplaces(comments: seq<Comment>, current: Comment, body: State)
    requires DistinctIds(comments) && StateComments(comments) == [current]
    ensures StateComments(Patch(comments, current.id, body)) == [Comment(current.id, Some(body))]
  {
    assert current in StateComments(comments);
    if comments[0].body.Some? {
      forall c | c in comments[1..] ensures c.id != current.id {
        var k :| 0 <= k < |comments[1..]| && comments[1..][k] == c;
        assert comments[k + 1] == c;
      }
      PatchMisses(comments[1..], current.id, body);
    } else {
      var k :| 0 <= k < |comments| && comments[k] == current;
      PatchReplaces(comments[1..], current, body);
    }
  }

  lemma {:induction false} AppendedState(comments: seq<Comment>, c: Comment)
    ensures StateComments(comments + [c]) == StateComments(comments) + if c.body.Some? then [c] else []
  {
    if comments != [] {
      assert (comments + [c])[1..] == comments[1..] + [c];
      AppendedState(comments[1..], c);
    }
  }

  lemma WrittenKeepsIds(comments: seq<Comment>, request: WriteRequest, newId: int)
    requires DistinctIds(comments) && forall c :: c in comments ==> c.id != newId
    ensures DistinctIds(Written(comments, request, newId))
  {
  }

  lemma {:induction false} PatchPage(comments: seq<Comment>, n: nat, id: int, body: State)
    requires n <= |comments|
    ensures Patch(comments, id, body)[..n] == Patch(comments[..n], id, body)
  {
    if n > 0 {
      PatchPage(comments[1..], n - 1, id, body);
      assert comments[..n][1..] == comments[1..][..n - 1];
    }
  }

  /** There is room on the page for a comment to be created. */
  predicate Visible(comments: seq<Comment>, request: WriteRequest) {
    request.httpMethod == POST ==> |comments| < PAGE
  }

  /** A validated write leaves exactly the requested state as the authoritative one if and only if it is an
      update or the page still has room; a state created behind a full page is never read. */
  lemma WrittenIsAuthoritative(comments: seq<Comment>, request: WriteRequest, newId: int)
    requires DistinctIds(comments) && forall c :: c in comments ==> c.id != newId
    requires ValidateStateWritePrecondition(Page(comments), request).Pass?
    ensures DistinctIds(Written(comments, request, newId))
    ensures LoadStateComment(Page(Written(comments, request, newId))) == Ok(Some(request.body)) <==> Visible(comments, request)
    ensures !Visible(comments, request) ==> Page(Written(comments, request, newId)) == Page(comments)
  {
    WrittenKeepsIds(comments, request, newId);
    if request.httpMethod == POST {
      CreatedIsAuthoritative(comments, request, newId);
    } else {
      UpdatedIsAuthoritative(comments, request, newId);
    }
  }

  lemma CreatedIsAuthoritative(comments: seq<Comment>, request: WriteRequest, newId: int)
    requires ValidateStateWritePrecondition(Page(comments), request).Pass? && request.httpMethod == POST
    ensures LoadStateComment(Page(Written(comments, request, newId))) == Ok(Some(request.body)) <==> |comments| < PAGE
    ensures |comments| >= PAGE ==> Page(Written(comments, request, newId)) == Page(comments)
  {
    hide RequireFreshWrite;
    var added := Comment(newId, Some(request.body));
    assert StateComments(Page(comments)) == [];
    if |comments| < PAGE {
      AppendedState(comments, added);
    } else {
      assert Page(comments + [added]) == Page(comments);
    }
  }

  lemma UpdatedIsAuthoritative(comments: seq<Comment>, request: WriteRequest, newId: int)
    requires DistinctIds(comments)
    requires ValidateStateWritePrecondition(Page(comments), request).Pass? && request.httpMethod == PATCH
    ensures LoadStateComment(Page(Written(comments, request, newId))) == Ok(Some(request.body))
  {
    hide RequireFreshWrite;
    var page := Page(comments);
    var found := StateComments(page);
    assert found == [found[0]] && request.commentId == Some(found[0].id);
    PatchReplaces(page, found[0], request.body);
    PatchPage(comments, |page|, found[0].id, request.body);
  }

  /** A request prepared on a ledger that has not changed since always validates, and a request
      validates only where a fresh write would be allowed. */
  lemma PreparedRequestValidates(comments: seq<Comment>, proposed: State)
    ensures StateWriteRequest(comments, proposed).Ok? ==>
      ValidateStateWritePrecondition(comments, StateWriteRequest(comments, proposed).value).Pass?
    ensures StateWriteRequest(comments, proposed).Ok? <==>
      LoadStateComment(comments).Ok? && RequireFreshWrite(LoadStateComment(comments).value, proposed).Pass?
  {
    hide CanRolloverState;
    var found := StateComments(comments);
    if |found| == 1 {
      assert found[0] in found;
    }
  }

  // ---------- the persistence boundary ----------

  /** The comment id in GitHub's response, if it is one. */
  datatype ResponseId = NoId | IntId(id: int) | OtherId

  /** GitHub's behaviour on one write: it may fail to store it, or to acknowledge it properly. */
  datatype Answer = Answer(stored: bool, acknowledged: bool, responseId: ResponseId, newId: int)

  datatype Persisted = Persisted(researchId: string, revision: nat, httpMethod: Method, commentId: int)

  /** The response identifies a comment, and for an update the comment that was updated. */
  predicate IdentityOk(request: WriteRequest, answer: Answer) {
    if request.httpMethod == POST then answer.responseId.IntId?
    else answer.responseId.NoId? || (answer.responseId.IntId? && Some(answer.responseId.id) == request.commentId)
  }

  class IssueCommentTransport {
    var comments: seq<Comment>

    ghost predicate Valid()
      reads this
    {
      DistinctIds(comments)
    }

    constructor ()
      ensures Valid() && comments == []
    {
      comments := [];
    }

    method Request(request: WriteRequest, answer: Answer) returns (response: Option<ResponseId>)
      requires Valid() && forall c :: c in comments ==> c.id != answer.newId
      modifies this
      ensures comments == if answer.stored then Written(old(comments), request, answer.newId) else old(comments)
      ensures response == if answer.acknowledged then Some(answer.responseId) else None
    {
      if answer.stored {
        comments := Written(comments, request, answer.newId);
      }
      return if answer.acknowledged then Some(answer.responseId) else None;
    }

    /** Validate, write and read back, each on the one page.  Success is reported exactly when the write was
        lawful, stored, visible on the page and properly acknowledged, and then the requested state is the
        authoritative one. */
    method PersistStateWrite(issueNumber: int, request: WriteRequest, answer: Answer) returns (r: Result<Persisted>)
      requires Valid() && forall c :: c in comments ==> c.id != answer.newId
      modifies this
      ensures Valid()
      ensures var lawful := issueNumber >= 1 && ValidateStateWritePrecondition(Page(old(comments)), request).Pass?;
        && comments == (if lawful && answer.stored then Written(old(comments), request, answer.newId) else old(comments))
        && (r.Ok? <==> lawful && answer.stored && Visible(old(comments), request)
                       && answer.acknowledged && IdentityOk(request, answer))
      ensures r.Ok? ==>
        && LoadStateComment(Page(comments)) == Ok(Some(request.body))
        && r.value.researchId == request.researchId && r.value.revision == request.expectedRevision
        && (request.httpMethod == PATCH ==> request.commentId == Some(r.value.commentId))
    {
      hide CanRolloverState;
      if issueNumber < 1 {
        return Err("issue_number must be positive");
      }
      var before := Page(comments);
      var precondition := ValidateStateWritePrecondition(before, request);
      if precondition.Fail? {
        return Err(precondition.error);
      }
      WrittenIsAuthoritative(comments, request, answer.newId);
      ValidatedShape(before, request);
      var response := Request(request, answer);
      hide ValidateStateWritePrecondition;
      if response.None? {
        return Err("durable state write returned invalid response");
      }
      var persistedId: int;
      match response.value {
        case IntId(id) => persistedId := id;
        case NoId =>
          if request.httpMethod == POST {
            return Err("durable state write returned invalid comment identity");
          }
          persistedId := request.commentId.value;
        case OtherId => return Err("durable state write returned invalid comment identity");
      }
      if request.httpMethod == PATCH && Some(persistedId) != request.commentId {
        return Err("durable state update changed comment identity");
      }
      var persisted := LoadStateComment(Page(comments));
      if persisted.Err? || persisted.value.None? {
        return Err("durable state disappeared after write");
      }
      var state := persisted.value.value;
      if state.researchId != request.researchId || state.revision != request.expectedRevision {
        return Err("durable state readback mismatch");
      }
      return Ok(Persisted(state.researchId, state.revision, request.httpMethod, persistedId));
    }
  }

  /** What a validated request tells about the page it was validated on. */
  lemma ValidatedShape(page: seq<Comment>, request: WriteRequest)
    requires ValidateStateWritePrecondition(page, request).Pass?
    ensures request.researchId == request.body.researchId && request.expectedRevision == request.body.revision
    ensures LoadStateComment(page).Ok?
    ensures request.httpMethod == POST <==> LoadStateComment(page).value.None?
    ensures request.httpMethod == PATCH <==> request.commentId.Some?
    ensures LoadStateComment(page).value.Some? ==>
      var current := LoadStateComment(page).value.value;
      current.researchId != request.researchId || current.revision < request.expectedRevision
  {
    hide CanRolloverState;
    if |StateComments(page)| == 1 {
      assert StateComments(page)[0] in StateComments(page);
    }
  }
}
