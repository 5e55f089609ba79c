/** The durable update queue: at most one handling per update, whatever crashes and redeliveries happen. */
module Telegram {
  import opened Wrappers

  datatype Thread = Thread(id: string)
  datatype Alias = Alias(words: string)

  datatype Conversation = Conversation(alias: Alias, active: bool, updated: int)

  /** An update as delivered: from the owner's chat or not, with a text or without. */
  datatype Update = Update(id: nat, owner: bool, hasText: bool)

  predicate Eligible(u: Update) { u.owner && u.hasText }

  predicate Mentioned(batch: seq<Update>, id: nat) {
    exists i :: 0 <= i < |batch| && batch[i].id == id && batch[i].owner && batch[i].hasText
  }

  /** The updates a crash-free poll hands over: eligible, not recorded before, each once, in order. */
  function NewOnes(batch: seq<Update>, recorded: set<nat>): (ids: seq<nat>)
  {
    if batch == [] then []
    else
      var front, last := NewOnes(batch[..|batch| - 1], recorded), batch[|batch| - 1];
      if Eligible(last) && last.id !in recorded && last.id !in front then front + [last.id] else front
  }

  lemma {:induction false} NewOnesAre(batch: seq<Update>, recorded: set<nat>)
    ensures forall id :: id in NewOnes(batch, recorded) <==> Mentioned(batch, id) && id !in recorded
    ensures forall i, j :: 0 <= i < j < |NewOnes(batch, recorded)| ==>
              NewOnes(batch, recorded)[i] != NewOnes(batch, recorded)[j]
  {
    if batch != [] {
      var front := batch[..|batch| - 1];
      NewOnesAre(front, recorded);
      forall id
        ensures id in NewOnes(batch, recorded) <==> Mentioned(batch, id) && id !in recorded
      {
        MentionedMore(batch, id);
      }
    }
  }

  lemma MentionedMore(batch: seq<Update>, id: nat)
    requires batch != []
    ensures var front, last := batch[..|batch| - 1], batch[|batch| - 1];
            Mentioned(batch, id) <==> Mentioned(front, id) || (Eligible(last) && last.id == id)
  {
    var front := batch[..|batch| - 1];
    if Mentioned(batch, id) {
      var i :| 0 <= i < |batch| && batch[i].id == id && Eligible(batch[i]);
      if i < |front| {
        assert front[i] == batch[i];
      }
    }
    if Mentioned(front, id) {
      var i :| 0 <= i < |front| && front[i].id == id && Eligible(front[i]);
      assert batch[i] == front[i];
    }
  }

  /** Each id occurs at most once. */
  ghost predicate Once(ids: seq<nat>) {
    forall i, j :: 0 <= i < j < |ids| ==> ids[i] != ids[j]
  }

  predicate Ascending(batch: seq<Update>) {
    forall i, j :: 0 <= i < j < |batch| ==> batch[i].id < batch[j].id
  }

  predicate AtOrAbove(batch: seq<Update>, offset: Option<nat>) {
    offset.Some? ==> forall i :: 0 <= i < |batch| ==> batch[i].id >= offset.value
  }

  ghost predicate OneActive(conversations: map<Thread, Conversation>) {
    forall a, b {:trigger conversations[a], conversations[b]} ::
      a in conversations && b in conversations && conversations[a].active && conversations[b].active ==> a == b
  }

  function Deactivated(conversations: map<Thread, Conversation>): (r: map<Thread, Conversation>) {
    map t | t in conversations :: conversations[t].(active := false)
  }

  datatype PollEnd = Finished(handled: nat) | Died

  class Controller {
    var recorded: set<nat>
    var finished: set<nat>
    var offset: Option<nat>
    var conversations: map<Thread, Conversation>
    ghost var handled: seq<nat>
    ghost var sent: seq<nat>

    /** No update is handled twice, and only recorded updates are handled. */
    ghost predicate Valid()
      reads this
    {
      && Once(handled) && (forall i :: 0 <= i < |handled| ==> handled[i] in recorded)
      && finished <= recorded && OneActive(conversations)
    }

    constructor ()
      ensures Valid() && recorded == {} && offset == None && handled == [] && conversations == map[]
    {
      recorded, finished, offset, conversations, handled, sent := {}, {}, None, map[], [], [];
    }

    /** Registration in one transaction; a taken alias violates the unique constraint and rolls back. */
    method Register(thread: Thread, alias: Alias, active: bool, now: int) returns (ok: bool)
      requires Valid()
      modifies this`conversations
      ensures Valid()
      ensures ok <==> thread in old(conversations) || forall t :: t in old(conversations) ==>
                old(conversations)[t].alias != alias
      ensures !ok ==> conversations == old(conversations)
      ensures ok ==> conversations.Keys == old(conversations).Keys + {thread}
      ensures ok ==> conversations[thread].active == active && conversations[thread].updated == now
      ensures ok ==> conversations[thread].alias == if thread in old(conversations)
              then old(conversations)[thread].alias else alias
      ensures ok ==> forall t :: t in old(conversations) && t != thread ==>
                conversations[t] == if active then old(conversations)[t].(active := false) else old(conversations)[t]
    {
      if thread !in conversations && exists t :: t in conversations && conversations[t].alias == alias {
        return false;
      }
      if active {
        conversations := Deactivated(conversations);
      }
      var kept := if thread in conversations then conversations[thread].alias else alias;
      conversations := conversations[thread := Conversation(kept, active, now)];
      return true;
    }

    method Select(thread: Thread, now: int) returns (ok: bool)
      requires Valid()
      modifies this`conversations
      ensures Valid() && ok == (thread in old(conversations))
      ensures ok ==> conversations.Keys == old(conversations).Keys && conversations[thread].active
      ensures ok ==> conversations[thread] == old(conversations)[thread].(active := true, updated := now)
      ensures ok ==> forall t :: t in conversations && t != thread ==>
              conversations[t] == old(conversations)[t].(active := false)
      ensures !ok ==> conversations == old(conversations)
    {
      if thread !in conversations {
        return false;
      }
      var was := conversations;
      conversations := Deactivated(conversations);
      conversations := conversations[thread := conversations[thread].(active := true, updated := now)];
      return true;
    }

    /** Handling an update may switch the conversation; it never touches the queue. */
    method Handle(id: nat) returns (dies: bool)
      requires Valid() && id in recorded && id !in handled
      modifies this`conversations, this`handled
      ensures Valid() && handled == old(handled) + [id]
    {
      dies := *;
      handled := handled + [id];
      var switches: bool, thread: Thread, now: int := *, *, *;
      if switches {
        var ok := Select(thread, now);
      }
    }

    /**
     `poll_once` on a delivered batch. The process may die at any statement; without a death each new
     owner text update is handled exactly once, in order.
     */
    method PollOnce(batch: seq<Update>) returns (end: PollEnd)
      requires Valid()
      modifies this
      ensures Valid() && old(recorded) <= recorded && old(handled) <= handled
      ensures forall id :: id in handled && id !in old(handled) ==> id in recorded && id !in old(recorded)
      ensures Dropped(old(recorded), recorded, handled, if end.Finished? then 0 else 1)
      ensures end.Finished? ==> handled == old(handled) + NewOnes(batch, old(recorded))
      ensures end.Finished? ==> end.handled == |NewOnes(batch, old(recorded))|
      ensures end.Finished? && batch != [] ==> offset == Some(batch[|batch| - 1].id + 1)
      ensures Ascending(batch) && AtOrAbove(batch, old(offset)) ==> NotBelow(old(offset), offset)
    {
      var count := 0;
      var i := 0;
      while i < |batch|
        invariant 0 <= i <= |batch| && Valid() && old(recorded) <= recorded
        invariant handled == old(handled) + NewOnes(batch[..i], old(recorded)) && count == |NewOnes(batch[..i], old(recorded))|
        invariant forall id :: id in recorded <==> id in old(recorded) || id in NewOnes(batch[..i], old(recorded))
        invariant i > 0 ==> offset == Some(batch[i - 1].id + 1)
        invariant i == 0 ==> offset == old(offset)
      {
        var u := batch[i];
        ghost var before := NewOnes(batch[..i], old(recorded));
        assert batch[..i + 1][..i] == batch[..i] && batch[..i + 1][i] == u;
        NewOnesAre(batch[..i], old(recorded));
        var dies: bool := *;
        if dies {
          return Died;
        }
        if Eligible(u) && u.id !in recorded {
          NotHandledYet(handled, recorded, u.id);
          recorded := recorded + {u.id};
          dies := *;
          if dies {
            return Died;
          }
          dies := Handle(u.id);
          if dies {
            return Died;
          }
          finished := finished + {u.id};
          dies := *;
          if dies {
            return Died;
          }
          offset := Some(u.id + 1);
          dies := *;
          if dies {
            return Died;
          }
          sent := sent + [u.id];
          count := count + 1;
          assert handled == old(handled) + (before + [u.id]);
        } else {
          offset := Some(u.id + 1);
        }
        i := i + 1;
      }
      assert batch[..i] == batch;
      NewOnesAre(batch, old(recorded));
      return Finished(count);
    }
  }

  /** Newly recorded updates that were not handled, and never will be: none, or one. */
  ghost predicate Dropped(before: set<nat>, after: set<nat>, handled: seq<nat>, most: nat) {
    && (most == 0 ==> forall id :: id in after && id !in before ==> id in handled)
    && forall x, y :: x in after - before && x !in handled && y in after - before && y !in handled ==> x == y
  }

  predicate NotBelow(before: Option<nat>, after: Option<nat>) {
    before.Some? ==> after.Some? && after.value >= before.value
  }

  lemma NotHandledYet(handled: seq<nat>, recorded: set<nat>, id: nat)
    requires forall i :: 0 <= i < |handled| ==> handled[i] in recorded
    requires id !in recorded
    ensures id !in handled
  {
  }

  /**
   A redelivered update is handled exactly if it was not recorded: one that was recorded but not
   handled before a crash is dropped, although the code promises its redelivery.
   */
  lemma RedeliveryIffUnrecorded(batch: seq<Update>, recorded: set<nat>, id: nat)
    requires Mentioned(batch, id)
    ensures id in NewOnes(batch, recorded) <==> id !in recorded
  {
    NewOnesAre(batch, recorded);
  }
}
