/** internal/forge/marker.go: the marker that says which agent wrote a comment. */
module Marker {
  import opened Wrappers
  import opened Text

  const WORKER := "worker"
  const REVIEWER := "reviewer"
  const MERGER := "merger"
  const RECONCILER := "reconciler"

  predicate IsTokenChar(c: char) {
    'a' <= c <= 'z' || '0' <= c <= '9' || c == '.' || c == '-'
  }

  lemma TokenAlphabet(c: char)
    ensures IsTokenChar(c) <==> c in "abcdefghijklmnopqrstuvwxyz0123456789.-"
  {
  }

  /** A model name as the marker expression accepts it. */
  predicate IsToken(s: string) {
    s != "" && forall i :: 0 <= i < |s| ==> IsTokenChar(s[i])
  }

  predicate IsRole(r: string) {
    r == WORKER || r == REVIEWER || r == MERGER || r == RECONCILER
  }

  /** strings.TrimLeft with the four characters the code lists. */
  function TrimFront(s: string): string {
    if s != "" && s[0] in " \t\n\r" then TrimFront(s[1..]) else s
  }

  predicate EndsWithRole(head: string, role: string) {
    && |head| > |role| + 1
    && head[|head| - |role|..] == role && head[|head| - |role| - 1] == '-'
    && IsToken(head[..|head| - |role| - 1])
  }

  /** The role before a colon, if what precedes it is a token and a dash. */
  function RoleOf(head: string): (r: Option<string>)
    ensures r.Some? ==> IsRole(r.value) && EndsWithRole(head, r.value)
  {
    if EndsWithRole(head, WORKER) then Some(WORKER)
    else if EndsWithRole(head, REVIEWER) then Some(REVIEWER)
    else if EndsWithRole(head, MERGER) then Some(MERGER)
    else if EndsWithRole(head, RECONCILER) then Some(RECONCILER)
    else None
  }

  /** AgentCommentRole. The expression admits no colon before its own, so it can only match up to
      the first one. */
  function AgentCommentRole(body: string): Option<string> {
    var trimmed := TrimFront(body);
    var n := IndexOf(trimmed, ':');
    if n == |trimmed| then None else RoleOf(trimmed[..n])
  }

  /** AgentCommentMessage. */
  function AgentCommentMessage(body: string): string {
    if AgentCommentRole(body).None? then TrimSpace(body)
    else
      var trimmed := TrimFront(body);
      TrimSpace(trimmed[IndexOf(trimmed, ':') + 1..])
  }

  function MarkerPrefix(model: string, role: string): string {
    model + "-" + role + ": "
  }

  /** The four roles cannot be mistaken for one another, whatever the model is called, even if it
      ends like a role itself. */
  lemma RoleIsDetermined(model: string, role: string)
    requires IsToken(model) && IsRole(role)
    ensures RoleOf(model + "-" + role) == Some(role)
  {
    var head := model + "-" + role;
    assert head[..|head| - |role| - 1] == model && head[|head| - |role|..] == role;
    assert EndsWithRole(head, role);
    LastOf(head, role);
    if EndsWithRole(head, WORKER) {
      LastOf(head, WORKER);
    }
    if EndsWithRole(head, REVIEWER) {
      LastOf(head, REVIEWER);
    }
    if EndsWithRole(head, MERGER) {
      LastOf(head, MERGER);
    }
  }

  /** The last letters of a head that ends with a role. */
  lemma LastOf(head: string, role: string)
    requires EndsWithRole(head, role) && IsRole(role)
    ensures head[|head| - 1] == role[|role| - 1] && head[|head| - 2] == role[|role| - 2] && head[|head| - 3] == role[|role| - 3]
    ensures head[|head| - 4] == role[|role| - 4] && head[|head| - 5] == role[|role| - 5]
  {
    var tail := head[|head| - |role|..];
    var n := |role|;
    assert tail[n - 1] == head[|head| - 1] && tail[n - 2] == head[|head| - 2] && tail[n - 3] == head[|head| - 3];
    assert tail[n - 4] == head[|head| - 4] && tail[n - 5] == head[|head| - 5];
  }

  lemma TrimSpaceDropsOne(s: string)
    requires s != "" && !IsSpace(s[0]) && !IsSpace(s[|s| - 1])
    ensures TrimSpace(" " + s) == s
  {
    assert (" " + s)[1..] == s;
    assert TrimLeft(" " + s) == TrimLeft(s) == s;
  }

  /** What a printed marker reads back as: its role, and the message behind it. */
  lemma PrefixReadsBack(model: string, role: string, message: string)
    requires IsToken(model) && IsRole(role)
    requires message != "" && !IsSpace(message[0]) && !IsSpace(message[|message| - 1])
    ensures AgentCommentRole(MarkerPrefix(model, role) + message) == Some(role)
    ensures AgentCommentMessage(MarkerPrefix(model, role) + message) == message
  {
    var head, rest := model + "-" + role, " " + message;
    var body := MarkerPrefix(model, role) + message;
    assert body == head + [':'] + rest;
    assert body[0] == model[0];
    assert TrimFront(body) == body;
    NoColon(model, role);
    IndexOfFirst(head, ':', rest);
    assert body[..|head|] == head && body[|head| + 1..] == rest;
    RoleIsDetermined(model, role);
    TrimSpaceDropsOne(message);
  }

  lemma NoColon(model: string, role: string)
    requires IsToken(model) && IsRole(role)
    ensures ':' !in model + "-" + role
  {
    forall i | 0 <= i < |model|
      ensures model[i] != ':'
    {
      assert IsTokenChar(model[i]);
    }
    assert ':' !in model;
    assert ':' !in role;
  }
}
