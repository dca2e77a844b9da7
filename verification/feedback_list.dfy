/** internal/forge/feedback.go, 256-366: which comments are still outstanding, and what posting a
    reply changes. */
module FeedbackList {
  import opened Wrappers
  import opened Marker
  import opened Feedback

  /** time is the parsed creation time, if the stamp parses. */
  datatype Comment = Comment(id: string, body: string, time: Option<int>)

  /** How bodies are read: as feedback, as a worker's, as acknowledging an id. */
  datatype Rules = Rules(actionable: string -> bool, worker: string -> bool, acknowledges: (string, string) -> bool)

  predicate IsWorker(body: string) {
    AgentCommentRole(body) == Some(WORKER)
  }

  function ForgeRules(): Rules {
    Rules(IsActionable, IsWorker, Acknowledges)
  }

  predicate AckedBy(target: Comment, other: Comment, rules: Rules) {
    && rules.worker(other.body) && rules.acknowledges(other.body, target.id)
    && target.time.Some? && other.time.Some? && other.time.value > target.time.value
  }

  ghost predicate IsAcked(target: Comment, all: seq<Comment>, rules: Rules) {
    exists o :: o in all && AckedBy(target, o, rules)
  }

  /** isGlobalCommentAcknowledged. */
  method IsGlobalCommentAcknowledged(target: Comment, all: seq<Comment>, rules: Rules) returns (acked: bool)
    ensures acked <==> IsAcked(target, all, rules)
  {
    if target.time.None? {
      return false;
    }
    for i := 0 to |all|
      invariant !IsAcked(target, all[..i], rules)
    {
      var other := all[i];
      assert all[..i + 1] == all[..i] + [other];
      if !rules.worker(other.body) {
        continue;
      }
      if !rules.acknowledges(other.body, target.id) {
        continue;
      }
      if other.time.None? || other.time.value <= target.time.value {
        continue;
      }
      assert other in all && AckedBy(target, other, rules);
      return true;
    }
    assert all[..|all|] == all;
    return false;
  }

  ghost predicate IsOutstanding(c: Comment, all: seq<Comment>, rules: Rules) {
    rules.actionable(c.body) && !IsAcked(c, all, rules)
  }

  /** The comments of list that are outstanding among all, in order. */
  ghost function Outstanding(list: seq<Comment>, all: seq<Comment>, rules: Rules): seq<Comment> {
    if list == [] then []
    else
      var n := |list| - 1;
      Outstanding(list[..n], all, rules) + if IsOutstanding(list[n], all, rules) then [list[n]] else []
  }

  function Flatten(pages: seq<seq<Comment>>): seq<Comment> {
    if pages == [] then [] else Flatten(pages[..|pages| - 1]) + pages[|pages| - 1]
  }

  method Gather(pages: seq<seq<Comment>>) returns (all: seq<Comment>)
    ensures all == Flatten(pages)
  {
    all := [];
    for i := 0 to |pages|
      invariant all == Flatten(pages[..i])
    {
      assert pages[..i + 1][..i] == pages[..i];
      all := all + pages[i];
    }
    assert pages[..|pages|] == pages;
  }

  /** listUnacknowledgedGlobalComments: gather the pages, then keep what is actionable and not
      acknowledged. */
  method ListOutstanding(pages: seq<seq<Comment>>, rules: Rules) returns (items: seq<Comment>)
    ensures items == Outstanding(Flatten(pages), Flatten(pages), rules)
  {
    var all := Gather(pages);
    items := [];
    for i := 0 to |all|
      invariant items == Outstanding(all[..i], all, rules)
    {
      assert all[..i + 1][..i] == all[..i];
      if rules.actionable(all[i].body) {
        var acked := IsGlobalCommentAcknowledged(all[i], all, rules);
        if !acked {
          items := items + [all[i]];
        }
      }
    }
    assert all[..|all|] == all;
  }

  /** A reply of either kind, as the writer prints it, for the comment id. */
  ghost predicate IsReplyFor(reply: Comment, id: string) {
    reply.time.Some? && exists model ::
      IsToken(model) && ((IsId(id) && reply.body == DisputedReply(model, id)) || (')' !in id && IsAddressed(reply.body, model, id)))
  }

  ghost predicate IsAddressed(body: string, model: string, id: string) {
    exists sha :: sha != "" && !HasBlank(sha) && body == AddressedReply(model, sha, id)
  }

  /** What the rules make of such a reply: no feedback, and an acknowledgment of exactly the comment
      it names. */
  ghost predicate ReadsAsReply(body: string, id: string, rules: Rules) {
    !rules.actionable(body) && rules.worker(body) && forall target :: rules.acknowledges(body, target) <==> target == id
  }

  lemma ReplyAcknowledges(reply: Comment, id: string, target: string)
    requires IsReplyFor(reply, id)
    ensures AgentCommentRole(reply.body) == Some(WORKER)
    ensures Acknowledges(reply.body, target) <==> target == id
  {
    var model :| IsToken(model) &&
      ((IsId(id) && reply.body == DisputedReply(model, id)) || (')' !in id && IsAddressed(reply.body, model, id)));
    if IsId(id) && reply.body == DisputedReply(model, id) {
      DisputedReadsBack(model, id);
      DisputedIsExact(model, id, target);
    } else {
      var sha :| sha != "" && !HasBlank(sha) && reply.body == AddressedReply(model, sha, id);
      AddressedReadsBack(model, sha, id);
      AddressedIsExact(model, sha, id, target);
    }
  }

  lemma ReplyReadsBack(reply: Comment, id: string)
    requires IsReplyFor(reply, id)
    ensures ReadsAsReply(reply.body, id, ForgeRules())
  {
    ReplyAcknowledges(reply, id, id);
    var rules := ForgeRules();
    assert rules.worker(reply.body) && !rules.actionable(reply.body);
    forall target
      ensures rules.acknowledges(reply.body, target) <==> target == id
    {
      ReplyAcknowledges(reply, id, target);
    }
  }

  /** Comments that a reply for id at time t leaves alone. */
  ghost predicate Kept(c: Comment, id: string, t: int) {
    c.id != id || c.time.None? || c.time.value >= t
  }

  ghost function KeptOf(list: seq<Comment>, id: string, t: int): seq<Comment> {
    if list == [] then []
    else
      var n := |list| - 1;
      KeptOf(list[..n], id, t) + if Kept(list[n], id, t) then [list[n]] else []
  }

  lemma OutstandingAfter(c: Comment, all: seq<Comment>, reply: Comment, id: string, rules: Rules)
    requires reply.time.Some? && ReadsAsReply(reply.body, id, rules)
    ensures IsOutstanding(c, all + [reply], rules) <==> IsOutstanding(c, all, rules) && Kept(c, id, reply.time.value)
  {
    assert forall o :: o in all + [reply] <==> o in all || o == reply;
    assert IsAcked(c, all + [reply], rules) <==> IsAcked(c, all, rules) || AckedBy(c, reply, rules);
  }

  lemma {:induction false} OutstandingListAfter(list: seq<Comment>, all: seq<Comment>, reply: Comment, id: string, rules: Rules)
    requires reply.time.Some? && ReadsAsReply(reply.body, id, rules)
    ensures Outstanding(list, all + [reply], rules) == KeptOf(Outstanding(list, all, rules), id, reply.time.value)
    decreases |list|
  {
    if list != [] {
      var n := |list| - 1;
      OutstandingListAfter(list[..n], all, reply, id, rules);
      OutstandingAfter(list[n], all, reply, id, rules);
      KeptSnoc(Outstanding(list[..n], all, rules), list[n], id, reply.time.value);
    }
  }

  lemma KeptSnoc(list: seq<Comment>, c: Comment, id: string, t: int)
    ensures KeptOf(list + [c], id, t) == KeptOf(list, id, t) + if Kept(c, id, t) then [c] else []
    ensures list + [] == list
  {
    assert (list + [c])[..|list|] == list;
  }

  /** Posting a reply changes the outstanding list in one way: it drops the comments with the id it
      names that were made before it. It adds nothing, and is itself no feedback. */
  lemma ReplyClearsItsComment(all: seq<Comment>, reply: Comment, id: string)
    requires IsReplyFor(reply, id)
    ensures var rules := ForgeRules();
      Outstanding(all + [reply], all + [reply], rules) == KeptOf(Outstanding(all, all, rules), id, reply.time.value)
  {
    ReplyReadsBack(reply, id);
    ReplyClears(all, reply, id, ForgeRules());
  }

  lemma ReplyClears(all: seq<Comment>, reply: Comment, id: string, rules: Rules)
    requires reply.time.Some? && ReadsAsReply(reply.body, id, rules)
    ensures Outstanding(all + [reply], all + [reply], rules) == KeptOf(Outstanding(all, all, rules), id, reply.time.value)
  {
    assert (all + [reply])[..|all|] == all;
    OutstandingListAfter(all, all, reply, id, rules);
    assert Outstanding(all, all + [reply], rules) + [] == Outstanding(all, all + [reply], rules);
  }

  ghost predicate IdsDistinct(list: seq<Comment>) {
    forall i, j :: 0 <= i < j < |list| ==> list[i].id != list[j].id
  }

  lemma {:induction false} KeptAll(list: seq<Comment>, id: string, t: int)
    requires forall i :: 0 <= i < |list| ==> list[i].id != id
    ensures KeptOf(list, id, t) == list
    decreases |list|
  {
    if list != [] {
      var n := |list| - 1;
      KeptAll(list[..n], id, t);
      assert list == list[..n] + [list[n]];
    }
  }

  lemma {:induction false} KeptButOne(list: seq<Comment>, k: nat, t: int)
    requires k < |list| && IdsDistinct(list) && list[k].time.Some? && list[k].time.value < t
    ensures KeptOf(list, list[k].id, t) == list[..k] + list[k + 1..]
    decreases |list|
  {
    var n := |list| - 1;
    if k == n {
      KeptAll(list[..n], list[k].id, t);
      assert list[..k] + list[k + 1..] == list[..n] + [];
    } else {
      KeptButOne(list[..n], k, t);
      assert list[..k] + list[k + 1..] == list[..n][..k] + list[..n][k + 1..] + [list[n]];
    }
  }

  /** With distinct ids, a strictly later reply takes exactly its comment off the list. */
  lemma LaterReplyRemovesExactlyOne(all: seq<Comment>, reply: Comment, k: nat)
    requires var list := Outstanding(all, all, ForgeRules());
      && k < |list| && IdsDistinct(list)
      && IsReplyFor(reply, list[k].id) && list[k].time.Some? && list[k].time.value < reply.time.value
    ensures var list := Outstanding(all, all, ForgeRules());
      Outstanding(all + [reply], all + [reply], ForgeRules()) == list[..k] + list[k + 1..]
  {
    var list := Outstanding(all, all, ForgeRules());
    ReplyClearsItsComment(all, reply, list[k].id);
    KeptButOne(list, k, reply.time.value);
  }
}
