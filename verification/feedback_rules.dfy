/** internal/forge/marker.go and internal/forge/feedback.go, 310-430: what marks a comment, what makes
    it feedback and what acknowledges one, said of the text itself. */
module FeedbackRules {
  import opened Wrappers
  import opened Text
  import opened Marker
  import opened Feedback
  import opened FeedbackList

  // ---------------------------------------------------------------------------------------------
  // Trimming
  // ---------------------------------------------------------------------------------------------

  ghost predicate AllSpace(s: string) {
    forall i :: 0 <= i < |s| ==> IsSpace(s[i])
  }

  /** Nothing to trim at either end. */
  predicate Trimmed(s: string) {
    s == "" || (!IsSpace(s[0]) && !IsSpace(s[|s| - 1]))
  }

  lemma SpaceInFront(s: string, front: string, kept: string)
    requires s != "" && IsSpace(s[0]) && s[1..] == front + kept && AllSpace(front)
    ensures s == [s[0]] + front + kept && AllSpace([s[0]] + front)
  {
    assert s == [s[0]] + s[1..];
  }

  lemma SpaceBehind(s: string, kept: string, back: string)
    requires s != "" && IsSpace(s[|s| - 1]) && s[..|s| - 1] == kept + back && AllSpace(back)
    ensures s == kept + (back + [s[|s| - 1]]) && AllSpace(back + [s[|s| - 1]])
  {
    assert s == s[..|s| - 1] + [s[|s| - 1]];
  }

  lemma {:induction false} TrimLeftSplits(s: string) returns (front: string)
    ensures s == front + TrimLeft(s) && AllSpace(front)
    ensures TrimLeft(s) != "" ==> !IsSpace(TrimLeft(s)[0])
    decreases |s|
  {
    if s != "" && IsSpace(s[0]) {
      var rest := TrimLeftSplits(s[1..]);
      front := [s[0]] + rest;
      SpaceInFront(s, rest, TrimLeft(s[1..]));
    } else {
      front := "";
    }
  }

  lemma {:induction false} TrimRightSplits(s: string) returns (back: string)
    ensures s == TrimRight(s) + back && AllSpace(back)
    ensures TrimRight(s) != "" ==> !IsSpace(TrimRight(s)[|TrimRight(s)| - 1])
    decreases |s|
  {
    if s != "" && IsSpace(s[|s| - 1]) {
      var rest := TrimRightSplits(s[..|s| - 1]);
      back := rest + [s[|s| - 1]];
      SpaceBehind(s, TrimRight(s[..|s| - 1]), rest);
    } else {
      back := "";
    }
  }

  /** TrimSpace takes white space off both ends, all of it and nothing else. */
  lemma TrimSpaceSplits(s: string) returns (front: string, back: string)
    ensures s == front + TrimSpace(s) + back && AllSpace(front) && AllSpace(back) && Trimmed(TrimSpace(s))
  {
    front := TrimLeftSplits(s);
    back := TrimRightSplits(TrimLeft(s));
    TrimmedMiddle(s, front, TrimLeft(s), TrimSpace(s), back);
  }

  lemma TrimmedMiddle(s: string, front: string, left: string, middle: string, back: string)
    requires s == front + left && left == middle + back
    requires left != "" ==> !IsSpace(left[0])
    requires middle != "" ==> !IsSpace(middle[|middle| - 1])
    ensures s == front + middle + back && Trimmed(middle)
  {
    assert middle != "" ==> middle[0] == left[0];
  }

  // ---------------------------------------------------------------------------------------------
  // Markers
  // ---------------------------------------------------------------------------------------------

  predicate IsBlank(s: string) {
    forall i :: 0 <= i < |s| ==> s[i] in " \t\n\r"
  }

  /** The body begins, behind blanks, with a token, a dash, a role and a colon. */
  ghost predicate MarkedAs(body: string, role: string) {
    exists blanks, token, rest :: MarkedBy(body, role, blanks, token, rest)
  }

  ghost predicate MarkedBy(body: string, role: string, blanks: string, token: string, rest: string) {
    IsRole(role) && IsBlank(blanks) && IsToken(token) && body == blanks + (token + "-" + role) + [':'] + rest
  }

  ghost predicate Unmarked(body: string) {
    forall role :: !MarkedAs(body, role)
  }

  lemma {:induction false} TrimFrontSplits(s: string) returns (blanks: string)
    ensures s == blanks + TrimFront(s) && IsBlank(blanks)
    decreases |s|
  {
    if s != "" && s[0] in " \t\n\r" {
      var rest := TrimFrontSplits(s[1..]);
      blanks := [s[0]] + rest;
      assert s == [s[0]] + s[1..];
    } else {
      blanks := "";
    }
  }

  lemma {:induction false} TrimFrontDrops(blanks: string, s: string)
    requires IsBlank(blanks) && s != "" && s[0] !in " \t\n\r"
    ensures TrimFront(blanks + s) == s
    decreases |blanks|
  {
    if blanks == "" {
      assert blanks + s == s;
    } else {
      assert (blanks + s)[1..] == blanks[1..] + s;
      TrimFrontDrops(blanks[1..], s);
    }
  }

  lemma MarkedReads(body: string, role: string, blanks: string, token: string, rest: string)
    requires MarkedBy(body, role, blanks, token, rest)
    ensures AgentCommentRole(body) == Some(role) && AgentCommentMessage(body) == TrimSpace(rest)
  {
    var head := token + "-" + role;
    var all := head + [':'] + rest;
    assert body == blanks + all;
    assert head[0] == token[0] && IsTokenChar(token[0]);
    assert all[0] == head[0];
    TrimFrontDrops(blanks, all);
    NoColon(token, role);
    IndexOfFirst(head, ':', rest);
    assert all[..|head|] == head && all[|head| + 1..] == rest;
    RoleIsDetermined(token, role);
  }

  lemma RoleIsMarked(body: string)
    requires AgentCommentRole(body).Some?
    ensures MarkedAs(body, AgentCommentRole(body).value)
  {
    var role := AgentCommentRole(body).value;
    var blanks := TrimFrontSplits(body);
    var trimmed, n := TrimFront(body), IndexOf(TrimFront(body), ':');
    RoleRead(body, trimmed, n, role);
    AtColon(trimmed, n);
    HeadParts(trimmed[..n], role);
    MarkedFrom(body, role, blanks, trimmed[..n][..n - |role| - 1], trimmed[..n], trimmed[n + 1..]);
  }

  lemma RoleRead(body: string, trimmed: string, n: nat, role: string)
    requires AgentCommentRole(body) == Some(role) && trimmed == TrimFront(body) && n == IndexOf(trimmed, ':')
    ensures n < |trimmed| && trimmed[n] == ':' && IsRole(role) && EndsWithRole(trimmed[..n], role)
  {
  }

  lemma AtColon(s: string, n: nat)
    requires n < |s| && s[n] == ':'
    ensures s == s[..n] + [':'] + s[n + 1..]
  {
  }

  lemma MarkedFrom(body: string, role: string, blanks: string, token: string, head: string, rest: string)
    requires IsRole(role) && IsBlank(blanks) && IsToken(token) && head == token + "-" + role
    requires body == blanks + (head + [':'] + rest)
    ensures MarkedAs(body, role)
  {
    Together(blanks, head, rest);
    assert MarkedBy(body, role, blanks, token, rest);
  }

  lemma HeadParts(head: string, role: string)
    requires EndsWithRole(head, role)
    ensures head == head[..|head| - |role| - 1] + "-" + role
  {
  }

  lemma Together(a: string, b: string, c: string)
    ensures a + (b + [':'] + c) == a + b + [':'] + c
  {
  }

  /** The role a comment is read with is the one it is marked with, and a comment is read with none
      exactly if it is not marked. */
  lemma RoleIffMarked(body: string, role: string)
    ensures AgentCommentRole(body) == Some(role) <==> MarkedAs(body, role)
    ensures AgentCommentRole(body) == None <==> Unmarked(body)
  {
    if AgentCommentRole(body).Some? { RoleIsMarked(body); }
    if MarkedAs(body, role) {
      var blanks, token, rest :| MarkedBy(body, role, blanks, token, rest);
      MarkedReads(body, role, blanks, token, rest);
    }
    if AgentCommentRole(body) == None {
      forall r ensures !MarkedAs(body, r) {
        if MarkedAs(body, r) {
          var blanks, token, rest :| MarkedBy(body, r, blanks, token, rest);
          MarkedReads(body, r, blanks, token, rest);
        }
      }
    }
  }

  // ---------------------------------------------------------------------------------------------
  // Feedback
  // ---------------------------------------------------------------------------------------------

  const LOWER_APPROVED := "approved"

  /** The text begins with APPROVED, each letter in either case. */
  predicate BeginsApproved(s: string) {
    |s| >= 8 && forall i :: 0 <= i < 8 ==> s[i] == APPROVED[i] || s[i] == LOWER_APPROVED[i]
  }

  lemma UpperIs(c: char, i: nat)
    requires i < 8
    ensures UpperAscii(c) == APPROVED[i] <==> c == APPROVED[i] || c == LOWER_APPROVED[i]
    ensures c == APPROVED[i] || c == LOWER_APPROVED[i] ==> !IsSpace(c)
  {
    assert APPROVED[i] in APPROVED;
    assert LOWER_APPROVED[i] as int == APPROVED[i] as int + 32;
  }

  lemma ApprovalIs(body: string)
    ensures IsReviewerApproval(body) <==> BeginsApproved(AgentCommentMessage(body))
  {
    var msg := AgentCommentMessage(body);
    assert |APPROVED| == 8;
    forall i | 0 <= i < 8 && i < |msg|
      ensures UpperAscii(msg[i]) == APPROVED[i] <==> msg[i] == APPROVED[i] || msg[i] == LOWER_APPROVED[i]
    {
      UpperIs(msg[i], i);
    }
  }

  lemma KeptInFront(t: string, kept: string, back: string, i: nat)
    requires t == kept + back && AllSpace(back) && i < |t| && !IsSpace(t[i])
    ensures i < |kept|
  {
    assert forall j :: |kept| <= j < |t| ==> t[j] == back[j - |kept|];
  }

  /** Trimming the end does not touch an approval at the front. */
  lemma TrimKeepsApproval(s: string)
    ensures BeginsApproved(TrimSpace(s)) <==> BeginsApproved(TrimLeft(s))
  {
    var t := TrimLeft(s);
    var back := TrimRightSplits(t);
    if BeginsApproved(t) {
      UpperIs(t[7], 7);
      KeptInFront(t, TrimSpace(s), back, 7);
    }
    assert forall i :: 0 <= i < |TrimSpace(s)| ==> TrimSpace(s)[i] == t[i];
  }

  /** What is feedback: every comment without a marker, whatever it says, and of the marked ones
      exactly the reviewers' that do not begin as an approval. */
  lemma ActionableIff(body: string)
    ensures Unmarked(body) ==> IsActionable(body)
    ensures MarkedAs(body, REVIEWER) ==> (IsActionable(body) <==> !BeginsApproved(AgentCommentMessage(body)))
    ensures MarkedAs(body, WORKER) || MarkedAs(body, MERGER) || MarkedAs(body, RECONCILER) ==> !IsActionable(body)
  {
    ApprovalIs(body);
    RoleIffMarked(body, REVIEWER);
    RoleIffMarked(body, WORKER);
    RoleIffMarked(body, MERGER);
    RoleIffMarked(body, RECONCILER);
    assert WORKER != REVIEWER && MERGER != REVIEWER && RECONCILER != REVIEWER;
  }

  lemma PrintedIsMarked(model: string, role: string, message: string)
    requires IsToken(model) && IsRole(role)
    ensures MarkedBy(MarkerPrefix(model, role) + message, role, "", model, " " + message)
  {
    var head := model + "-" + role;
    assert MarkerPrefix(model, role) + message == head + [':'] + (" " + message);
    assert "" + head == head;
  }

  /** A reviewer's printed comment is feedback exactly if what it says does not begin with APPROVED in
      any case; what any other agent prints never is. */
  lemma PrintedIsFeedbackIff(model: string, role: string, message: string)
    requires IsToken(model) && IsRole(role)
    ensures IsActionable(MarkerPrefix(model, role) + message) <==> role == REVIEWER && !BeginsApproved(TrimLeft(message))
  {
    var body := MarkerPrefix(model, role) + message;
    PrintedIsMarked(model, role, message);
    MarkedReads(body, role, "", model, " " + message);
    assert (" " + message)[1..] == message;
    assert TrimLeft(" " + message) == TrimLeft(message);
    TrimKeepsApproval(" " + message);
    ApprovalIs(body);
  }

  // ---------------------------------------------------------------------------------------------
  // Acknowledgments
  // ---------------------------------------------------------------------------------------------

  /** "addressed in", a commit without blanks, and the reference to the comment; anything behind it. */
  ghost predicate SaysAddressed(msg: string, target: string) {
    exists sha, tail :: SaysAddressedIn(msg, target, sha, tail)
  }

  ghost predicate SaysAddressedIn(msg: string, target: string, sha: string, tail: string) {
    sha != "" && !HasBlank(sha) && msg == ADDRESSED + (sha + ((SEE + target + ")") + tail))
  }

  ghost predicate SaysDisputed(msg: string, target: string) {
    IsId(target) && exists tail :: msg == DISPUTED + (target + [')'] + tail)
  }

  lemma {:induction false} FindIsFirst(s: string, sub: string, i: nat)
    requires Found(s, sub) && i < Find(s, sub)
    ensures i <= |s| && !(sub <= s[i..])
    decreases |s|
  {
    if i == 0 {
      assert s[0..] == s;
    } else {
      assert s[1..][Find(s[1..], sub)..] == s[Find(s, sub)..];
      FindIsFirst(s[1..], sub, i - 1);
      assert s[1..][i - 1..] == s[i..];
    }
  }

  lemma AddressedIff(rest: string, marker: string)
    requires marker != "" && marker[0] == ' '
    ensures Found(rest, marker) && rest[..Find(rest, marker)] != "" && !HasBlank(rest[..Find(rest, marker)]) <==>
      exists sha, tail :: sha != "" && !HasBlank(sha) && rest == sha + (marker + tail)
  {
    var n := Find(rest, marker);
    if Found(rest, marker) && rest[..n] != "" && !HasBlank(rest[..n]) {
      assert rest[n..] == marker + rest[n..][|marker|..];
      assert rest == rest[..n] + (marker + rest[n..][|marker|..]);
    }
    if sha, tail :| sha != "" && !HasBlank(sha) && rest == sha + (marker + tail) {
      assert rest[|sha|..] == marker + tail;
      FindBounds(rest, marker, |sha|);
      MarkerNotInSha(sha, marker + tail, marker);
      assert rest[..n] == sha;
    }
  }

  lemma DisputedIff(rest: string, target: string)
    ensures var n := IndexOf(rest, ')');
      n < |rest| && rest[..n] != "" && !HasBlank(rest[..n]) && rest[..n] == target <==>
      IsId(target) && exists tail :: rest == target + [')'] + tail
  {
    var n := IndexOf(rest, ')');
    if n < |rest| && rest[..n] == target {
      ClosedAt(rest, n);
    }
    if IsId(target) {
      if tail :| rest == target + [')'] + tail {
        ClosedFirst(target, tail);
      }
    }
  }

  lemma ClosedAt(rest: string, n: nat)
    requires n == IndexOf(rest, ')') && n < |rest|
    ensures rest == rest[..n] + [')'] + rest[n + 1..] && ')' !in rest[..n]
  {
    ParenthesisAt(rest, n);
  }

  lemma ParenthesisAt(rest: string, n: nat)
    requires n < |rest| && rest[n] == ')' && forall i :: 0 <= i < n ==> rest[i] != ')'
    ensures rest == rest[..n] + [')'] + rest[n + 1..] && ')' !in rest[..n]
  {
  }

  lemma ClosedFirst(target: string, tail: string)
    requires ')' !in target
    ensures var rest := target + [')'] + tail; IndexOf(rest, ')') == |target| && |target| < |rest| && rest[..|target|] == target
  {
    IndexOfFirst(target, ')', tail);
  }

  /** What acknowledges a comment: exactly the two forms, for exactly that id. */
  lemma AcknowledgesIff(body: string, target: string)
    ensures Acknowledges(body, target) <==>
      SaysAddressed(AgentCommentMessage(body), target) || SaysDisputed(AgentCommentMessage(body), target)
  {
    var msg, marker := AgentCommentMessage(body), SEE + target + ")";
    assert marker[0] == ' ';
    NeverBoth(msg);
    if ADDRESSED <= msg {
      var rest := msg[|ADDRESSED|..];
      assert msg == ADDRESSED + rest;
      AddressedIff(rest, marker);
      AddressedForm(msg, target, rest);
    } else if DISPUTED <= msg {
      var rest := msg[|DISPUTED|..];
      assert msg == DISPUTED + rest;
      DisputedIff(rest, target);
      DisputedForm(msg, target, rest);
    }
    if SaysAddressed(msg, target) {
      var sha, tail :| SaysAddressedIn(msg, target, sha, tail);
      assert ADDRESSED <= msg;
    }
  }

  lemma NeverBoth(msg: string)
    ensures !(ADDRESSED <= msg && DISPUTED <= msg)
  {
    assert ADDRESSED <= msg ==> msg[0] == ADDRESSED[0];
    assert DISPUTED <= msg ==> msg[0] == DISPUTED[0];
    assert ADDRESSED[0] != DISPUTED[0];
  }

  lemma AddressedForm(msg: string, target: string, rest: string)
    requires msg == ADDRESSED + rest
    ensures SaysAddressed(msg, target) <==>
      exists sha, tail :: sha != "" && !HasBlank(sha) && rest == sha + ((SEE + target + ")") + tail)
  {
    if SaysAddressed(msg, target) {
      var sha, tail :| SaysAddressedIn(msg, target, sha, tail);
      assert rest == msg[|ADDRESSED|..] == sha + ((SEE + target + ")") + tail);
    }
    if sha, tail :| sha != "" && !HasBlank(sha) && rest == sha + ((SEE + target + ")") + tail) {
      assert SaysAddressedIn(msg, target, sha, tail);
    }
  }

  lemma DisputedForm(msg: string, target: string, rest: string)
    requires msg == DISPUTED + rest
    ensures SaysDisputed(msg, target) <==> IsId(target) && exists tail :: rest == target + [')'] + tail
  {
    if tail :| msg == DISPUTED + (target + [')'] + tail) {
      assert rest == msg[|DISPUTED|..] == target + [')'] + tail;
    }
  }

  // ---------------------------------------------------------------------------------------------
  // The list
  // ---------------------------------------------------------------------------------------------

  lemma {:induction false} OutstandingMembers(list: seq<Comment>, all: seq<Comment>, rules: Rules, c: Comment)
    ensures c in Outstanding(list, all, rules) <==> c in list && IsOutstanding(c, all, rules)
    decreases |list|
  {
    if list != [] {
      var n := |list| - 1;
      OutstandingMembers(list[..n], all, rules, c);
      assert list == list[..n] + [list[n]];
    }
  }

  /** A worker's comment in one of the two forms, made later than c and for its id. */
  ghost predicate Clears(o: Comment, c: Comment) {
    && MarkedAs(o.body, WORKER)
    && (SaysAddressed(AgentCommentMessage(o.body), c.id) || SaysDisputed(AgentCommentMessage(o.body), c.id))
    && c.time.Some? && o.time.Some? && o.time.value > c.time.value
  }

  lemma ClearsIsAck(o: Comment, c: Comment)
    ensures Clears(o, c) <==> AckedBy(c, o, ForgeRules())
  {
    RoleIffMarked(o.body, WORKER);
    AcknowledgesIff(o.body, c.id);
  }

  /** A comment without a marker is on the list exactly until some comment clears it. */
  lemma HumanFeedbackIsListed(all: seq<Comment>, c: Comment)
    requires c in all && Unmarked(c.body)
    ensures c in Outstanding(all, all, ForgeRules()) <==> forall o :: o in all ==> !Clears(o, c)
  {
    ListedIff(all, c);
    ActionableIff(c.body);
  }

  /** And so is a reviewer's, unless it begins as an approval; no other agent's ever is. */
  lemma ListedIff(all: seq<Comment>, c: Comment)
    ensures c in Outstanding(all, all, ForgeRules()) <==>
      c in all && IsActionable(c.body) && forall o :: o in all ==> !Clears(o, c)
  {
    OutstandingMembers(all, all, ForgeRules(), c);
    forall o | o in all
      ensures Clears(o, c) <==> AckedBy(c, o, ForgeRules())
    {
      ClearsIsAck(o, c);
    }
  }

  /** The printed replies are such comments: one for c's id made strictly later takes c off the list. */
  lemma LaterReplyClears(o: Comment, c: Comment, id: string)
    requires IsReplyFor(o, id) && c.time.Some? && o.time.value > c.time.value
    ensures Clears(o, c) <==> id == c.id
  {
    ReplyAcknowledges(o, id, c.id);
    ClearsIsAck(o, c);
  }

  /** Where workers only print replies, an unmarked comment is on the list exactly until a strictly
      later reply for its id is among the comments. */
  lemma ListedUntilReplied(all: seq<Comment>, c: Comment)
    requires c in all && Unmarked(c.body)
    requires forall o :: o in all && IsWorker(o.body) ==> exists id :: IsReplyFor(o, id)
    ensures c in Outstanding(all, all, ForgeRules()) <==>
      !exists o :: o in all && IsReplyFor(o, c.id) && c.time.Some? && o.time.value > c.time.value
  {
    HumanFeedbackIsListed(all, c);
    if o :| o in all && Clears(o, c) {
      RoleIffMarked(o.body, WORKER);
      var id :| IsReplyFor(o, id);
      LaterReplyClears(o, c, id);
    }
    if o :| o in all && IsReplyFor(o, c.id) && c.time.Some? && o.time.value > c.time.value {
      LaterReplyClears(o, c, c.id);
      assert Clears(o, c);
    }
  }
}
