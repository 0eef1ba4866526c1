/** The Telegram adapter's long-polling loop: the offset, which updates reach the handler, and the replies. */
module Telegrams {
  import opened Wrappers

  // ---- JSON, as encoding/json decodes it into map[string]any ------------------------

  datatype Json = Null | Num(n: int) | Str(s: string) | Obj(fields: map<string, Json>) | Other

  /** v[key].(map[string]any) */
  function ObjAt(v: Json, key: string): Option<Json> {
    if v.Obj? && key in v.fields && v.fields[key].Obj? then Some(v.fields[key]) else None
  }

  /** getNumber(v[key]); numbers are integers that fit an int64. */
  function NumAt(v: Json, key: string): Option<int> {
    if v.Obj? && key in v.fields && v.fields[key].Num? then Some(v.fields[key].n) else None
  }

  function StrAt(v: Json, key: string): Option<string> {
    if v.Obj? && key in v.fields && v.fields[key].Str? then Some(v.fields[key].s) else None
  }

  const MAX_INT64 := 0x7FFF_FFFF_FFFF_FFFF

  /** int64 addition of one */
  function Next(id: int): int {
    if id == MAX_INT64 then -MAX_INT64 - 1 else id + 1
  }

  // ---- Updates ----------------------------------------------------------------------

  /** The update id, zero if it is missing. */
  function IdOf(u: Json): int {
    match NumAt(u, "update_id")
    case None => 0
    case Some(id) => id
  }

  datatype Update = Update(kind: string, id: int, chat: Option<int>)

  function ChatOf(message: Json): Option<int> {
    match ObjAt(message, "chat")
    case None => None
    case Some(chat) => NumAt(chat, "id")
  }

  /** parseTelegramUpdate: None for an update of a kind it does not know. */
  function ParseUpdate(u: Json): Option<Update> {
    match ObjAt(u, "message")
    case Some(m) => Some(Update("message", IdOf(u), ChatOf(m)))
    case None =>
      match ObjAt(u, "edited_message")
      case Some(m) => Some(Update("edited_message", IdOf(u), ChatOf(m)))
      case None =>
        match ObjAt(u, "callback_query")
        case None => None
        case Some(c) =>
          match ObjAt(c, "message")
          case None => Some(Update("callback_query", IdOf(u), None))
          case Some(m) => Some(Update("callback_query", IdOf(u), ChatOf(m)))
  }

  /** The object has a field of this name that is an object again. */
  ghost predicate Holds(v: Json, key: string) {
    v.Obj? && key in v.fields && v.fields[key].Obj?
  }

  /** The update is of this kind: the first of the three fields, in this order, that holds an object. */
  ghost predicate OfKind(u: Json, kind: string) {
    || (kind == "message" && Holds(u, "message"))
    || (kind == "edited_message" && !Holds(u, "message") && Holds(u, "edited_message"))
    || (kind == "callback_query" && !Holds(u, "message") && !Holds(u, "edited_message")
        && Holds(u, "callback_query"))
  }

  /** The message of the update says that it comes from this chat. */
  ghost predicate FromChat(u: Json, chat: int) {
    exists kind, m ::
      && OfKind(u, kind)
      && (if kind == "callback_query" then Holds(u.fields[kind], "message") && m == u.fields[kind].fields["message"]
          else m == u.fields[kind])
      && Holds(m, "chat") && "id" in m.fields["chat"].fields && m.fields["chat"].fields["id"] == Num(chat)
  }

  /** What is read from an update, field by field. */
  lemma UpdateReads(u: Json)
    ensures forall kind :: OfKind(u, kind) <==> ParseUpdate(u).Some? && ParseUpdate(u).value.kind == kind
    ensures forall chat :: FromChat(u, chat) <==> ParseUpdate(u).Some? && ParseUpdate(u).value.chat == Some(chat)
    ensures ParseUpdate(u).Some? ==> ParseUpdate(u).value.id == IdOf(u)
    ensures IdOf(u) == if u.Obj? && "update_id" in u.fields && u.fields["update_id"].Num? then u.fields["update_id"].n
                       else 0
  {
    var p := ParseUpdate(u);
    if p.Some? && p.value.chat.Some? {
      var body := u.fields[p.value.kind];
      var m := if p.value.kind == "callback_query" then body.fields["message"] else body;
      assert OfKind(u, p.value.kind) && Holds(m, "chat");
      assert FromChat(u, p.value.chat.value);
    }
  }

  // ---- Replies ----------------------------------------------------------------------

  const GENERIC_REPLY := "Sorry, something went wrong. Please try again later."

  /** extractResponseText */
  function ResponseText(result: Json): string {
    match result
    case Str(s) => s
    case Obj(_) => (match StrAt(result, "text") case Some(s) => s case None => "")
    case _ => ""
  }

  /** The result is a string with this text, or an object with it in its field "text". */
  ghost predicate Says(result: Option<Json>, text: string) {
    && text != "" && result.Some?
    && (result.value == Str(text)
        || (result.value.Obj? && "text" in result.value.fields && result.value.fields["text"] == Str(text)))
  }

  /** The reply for what the handler returned, None being an error. */
  function ReplyText(result: Option<Json>): (r: string)
    ensures r != ""
    ensures result.Some? && result.value.Str? && result.value.s != "" ==> r == result.value.s
    ensures result.Some? && result.value.Obj? && "text" in result.value.fields
            && result.value.fields["text"].Str? && result.value.fields["text"].s != "" ==>
              r == result.value.fields["text"].s
    ensures r == "Sorry, something went wrong. Please try again later." || Says(result, r)
  {
    if result.None? || ResponseText(result.value) == "" then GENERIC_REPLY else ResponseText(result.value)
  }

  datatype Reply = Reply(id: int, chat: int, text: string)

  // ---- What the whole history of polls amounts to ---------------------------------------

  /** One getUpdates: the updates it returned, or None if it failed. */
  type Poll = Option<seq<Json>>

  /** All updates received, in order. */
  function Received(polls: seq<Poll>): seq<Json> {
    if polls == [] then []
    else Received(polls[..|polls| - 1])
         + match polls[|polls| - 1] { case None => [] case Some(batch) => batch }
  }

  predicate Wanted(u: Json, kinds: seq<string>) {
    ParseUpdate(u).Some? && ParseUpdate(u).value.kind in kinds
  }

  /** The recognised and enabled updates, in order. */
  function Dispatched(updates: seq<Json>, kinds: seq<string>): seq<Json> {
    if updates == [] then []
    else
      var last := updates[|updates| - 1];
      Dispatched(updates[..|updates| - 1], kinds) + if Wanted(last, kinds) then [last] else []
  }

  /** The offset after these updates. */
  function OffsetAfter(updates: seq<Json>): int {
    if updates == [] then 0
    else
      var before, id := OffsetAfter(updates[..|updates| - 1]), IdOf(updates[|updates| - 1]);
      if id >= before then Next(id) else before
  }

  /** One call of the handler, and what came of it: a result, or None for an error. */
  datatype Call = Call(update: Json, result: Option<Json>)

  function Updates(calls: seq<Call>): seq<Json> {
    seq(|calls|, i requires 0 <= i < |calls| => calls[i].update)
  }

  /** The reply a call owes: none without a chat id. */
  function ReplyTo(c: Call): seq<Reply> {
    match ParseUpdate(c.update)
    case None => []
    case Some(p) => if p.chat.Some? then [Reply(p.id, p.chat.value, ReplyText(c.result))] else []
  }

  function Owed(calls: seq<Call>): seq<Reply> {
    if calls == [] then [] else Owed(calls[..|calls| - 1]) + ReplyTo(calls[|calls| - 1])
  }

  lemma OneMore(calls: seq<Call>, c: Call)
    ensures Owed(calls + [c]) == Owed(calls) + ReplyTo(c) && Updates(calls + [c]) == Updates(calls) + [c.update]
  {
    assert (calls + [c])[..|calls|] == calls;
  }

  class TelegramAdapter {
    const kinds: seq<string>
    var offset: int
    /** Calls of the handler, and replies attempted. */
    ghost var calls: seq<Call>
    ghost var replies: seq<Reply>

    constructor (kinds: seq<string>)
      ensures this.kinds == kinds && offset == 0 && calls == [] && replies == []
    {
      this.kinds, offset, calls, replies := kinds, 0, [], [];
    }

    /** The handler: any result, or an error. */
    method Handle(u: Json) returns (result: Option<Json>)
      modifies this`calls
      ensures calls == old(calls) + [Call(u, result)]
    {
      result := *;
      calls := calls + [Call(u, result)];
    }

    method SendMessage(id: int, chat: int, text: string)
      modifies this`replies
      ensures replies == old(replies) + [Reply(id, chat, text)]
    {
      replies := replies + [Reply(id, chat, text)];
    }

    /** One round of the inner loop. */
    method Process(u: Json)
      requires replies == Owed(calls)
      modifies this
      ensures offset == if IdOf(u) >= old(offset) then Next(IdOf(u)) else old(offset)
      ensures Updates(calls) == Updates(old(calls)) + if Wanted(u, kinds) then [u] else []
      ensures replies == Owed(calls)
    {
      var id := IdOf(u);
      if id >= offset {
        offset := Next(id);
      }
      var parsed := ParseUpdate(u);
      if parsed.Some? && parsed.value.kind in kinds {
        var result := Handle(u);
        OneMore(old(calls), Call(u, result));
        var reply: string;
        if result.None? {
          reply := GENERIC_REPLY;
        } else {
          reply := ResponseText(result.value);
          if reply == "" {
            reply := GENERIC_REPLY;
          }
        }
        if parsed.value.chat.Some? {
          SendMessage(parsed.value.id, parsed.value.chat.value, reply);
        }
      }
    }

    /** The inner loop. */
    method ProcessBatch(ghost was: seq<Json>, batch: seq<Json>)
      requires offset == OffsetAfter(was) && Updates(calls) == Dispatched(was, kinds) && replies == Owed(calls)
      modifies this
      ensures offset == OffsetAfter(was + batch) && Updates(calls) == Dispatched(was + batch, kinds)
      ensures replies == Owed(calls)
    {
      hide Owed, Wanted, Updates;
      assert was + batch[..0] == was;
      for j := 0 to |batch|
        invariant offset == OffsetAfter(was + batch[..j])
        invariant Updates(calls) == Dispatched(was + batch[..j], kinds)
        invariant replies == Owed(calls)
      {
        assert (was + batch[..j + 1])[..|was| + j] == was + batch[..j];
        Process(batch[j]);
      }
      assert batch[..|batch|] == batch;
    }

    /** pollLoop over any sequence of polls: a failed one changes nothing. */
    method PollLoop(polls: seq<Poll>)
      requires offset == 0 && calls == [] && replies == []
      modifies this
      ensures offset == OffsetAfter(Received(polls))
      ensures Updates(calls) == Dispatched(Received(polls), kinds)
      ensures replies == Owed(calls)
    {
      for i := 0 to |polls|
        invariant offset == OffsetAfter(Received(polls[..i]))
        invariant Updates(calls) == Dispatched(Received(polls[..i]), kinds)
        invariant replies == Owed(calls)
      {
        hide Owed, Wanted, OffsetAfter, Dispatched, Updates;
        assert polls[..i + 1][..i] == polls[..i];
        if polls[i].Some? {
          ProcessBatch(Received(polls[..i]), polls[i].value);
        } else {
          assert Received(polls[..i]) + [] == Received(polls[..i]);
        }
      }
      assert polls[..|polls|] == polls;
    }
  }

  // ---- What a well-behaved server gets --------------------------------------------------

  /** The server returns only updates with distinct ids at or above the offset it was asked for. */
  ghost predicate Served(polls: seq<Poll>) {
    forall i :: 0 <= i < |polls| && polls[i].Some? ==>
      && Distinct(polls[i].value)
      && forall u :: u in polls[i].value ==> OffsetAfter(Received(polls[..i])) <= IdOf(u) < MAX_INT64
  }

  ghost predicate Distinct(updates: seq<Json>) {
    forall i, j :: 0 <= i < j < |updates| ==> IdOf(updates[i]) != IdOf(updates[j])
  }

  /** The offset exceeds every id received and is none or one more than one of them. */
  lemma {:induction false} OffsetIsPast(updates: seq<Json>)
    requires forall u :: u in updates ==> IdOf(u) < MAX_INT64
    ensures OffsetAfter(updates) >= 0
    ensures forall u :: u in updates ==> IdOf(u) < OffsetAfter(updates)
    ensures OffsetAfter(updates) > 0 ==> exists u :: u in updates && OffsetAfter(updates) == IdOf(u) + 1
    decreases |updates|
  {
    if updates != [] {
      var before, last := updates[..|updates| - 1], updates[|updates| - 1];
      OffsetIsPast(before);
      assert updates == before + [last];
      if OffsetAfter(updates) != OffsetAfter(before) {
        assert last in updates;
      }
    }
  }

  /** Left to itself the offset decreases exactly on an id of 2^63 - 1, where it wraps around. */
  lemma OffsetDropsIff(updates: seq<Json>, u: Json)
    requires IdOf(u) <= MAX_INT64 && -MAX_INT64 - 1 < OffsetAfter(updates) <= MAX_INT64
    ensures OffsetAfter(updates + [u]) < OffsetAfter(updates) <==> IdOf(u) == MAX_INT64
  {
    assert (updates + [u])[..|updates|] == updates;
  }

  lemma {:induction false} ReceivedIds(polls: seq<Poll>)
    requires Served(polls)
    ensures forall u :: u in Received(polls) ==> IdOf(u) < MAX_INT64
    decreases |polls|
  {
    if polls != [] {
      ServedBefore(polls);
      ReceivedIds(polls[..|polls| - 1]);
    }
  }

  lemma ServedBefore(polls: seq<Poll>)
    requires Served(polls) && polls != []
    ensures Served(polls[..|polls| - 1])
  {
    var before := polls[..|polls| - 1];
    forall i | 0 <= i < |before| && before[i].Some?
      ensures Distinct(before[i].value)
      ensures forall u :: u in before[i].value ==> OffsetAfter(Received(before[..i])) <= IdOf(u) < MAX_INT64
    {
      assert before[i] == polls[i] && before[..i] == polls[..i];
    }
  }

  /** The poll offset never decreases. */
  lemma OffsetGrows(polls: seq<Poll>)
    requires Served(polls) && polls != []
    ensures OffsetAfter(Received(polls[..|polls| - 1])) <= OffsetAfter(Received(polls))
  {
    var before := Received(polls[..|polls| - 1]);
    ServedBefore(polls);
    ReceivedIds(polls[..|polls| - 1]);
    ReceivedIds(polls);
    OffsetIsPast(before);
    OffsetIsPast(Received(polls));
    if OffsetAfter(before) > 0 {
      var u :| u in before && OffsetAfter(before) == IdOf(u) + 1;
      assert u in Received(polls);
    }
  }

  /** No update is received twice. */
  lemma {:induction false} NoneTwice(polls: seq<Poll>)
    requires Served(polls)
    ensures Distinct(Received(polls))
    decreases |polls|
  {
    if polls != [] {
      var before, n := Received(polls[..|polls| - 1]), |polls| - 1;
      ServedBefore(polls);
      NoneTwice(polls[..n]);
      ReceivedIds(polls[..n]);
      OffsetIsPast(before);
      if polls[n].Some? {
        assert forall u :: u in polls[n].value ==> OffsetAfter(before) <= IdOf(u);
      }
    }
  }

  lemma {:induction false} DispatchedAre(updates: seq<Json>, kinds: seq<string>, u: Json)
    ensures u in Dispatched(updates, kinds) <==> u in updates && Wanted(u, kinds)
    decreases |updates|
  {
    if updates != [] {
      var before, last := updates[..|updates| - 1], updates[|updates| - 1];
      DispatchedAre(before, kinds, u);
      assert updates == before + [last];
    }
  }

  lemma {:induction false} DispatchedOnce(updates: seq<Json>, kinds: seq<string>)
    requires Distinct(updates)
    ensures Distinct(Dispatched(updates, kinds))
    decreases |updates|
  {
    if updates != [] {
      var before, last := updates[..|updates| - 1], updates[|updates| - 1];
      DispatchedOnce(before, kinds);
      forall u | u in Dispatched(before, kinds)
        ensures IdOf(u) != IdOf(last)
      {
        DispatchedAre(before, kinds, u);
      }
    }
  }

  /** Exactly the recognised and enabled updates reach the handler, none of them twice. */
  lemma HandledOnce(polls: seq<Poll>, kinds: seq<string>, u: Json)
    requires Served(polls)
    ensures Distinct(Dispatched(Received(polls), kinds))
    ensures u in Dispatched(Received(polls), kinds)
            <==> u in Received(polls) && exists kind :: kind in kinds && OfKind(u, kind)
  {
    UpdateReads(u);
    NoneTwice(polls);
    DispatchedOnce(Received(polls), kinds);
    DispatchedAre(Received(polls), kinds, u);
  }

  ghost predicate HasId(calls: seq<Call>, id: int) {
    exists c :: c in calls && IdOf(c.update) == id
  }

  /** Every reply belongs to a call. */
  lemma {:induction false} RepliesCome(calls: seq<Call>)
    ensures forall r :: r in Owed(calls) ==> HasId(calls, r.id)
    decreases |calls|
  {
    if calls != [] {
      var before, last := calls[..|calls| - 1], calls[|calls| - 1];
      RepliesCome(before);
      assert calls == before + [last] && last in calls;
      forall r | r in Owed(calls)
        ensures HasId(calls, r.id)
      {
        if r in Owed(before) {
          assert HasId(before, r.id);
        } else {
          assert r.id == IdOf(last.update);
        }
      }
    }
  }

  /** Exactly one of the replies is this one, and no other has its id. */
  ghost predicate OnlyReply(replies: seq<Reply>, r: Reply) {
    exists i :: && 0 <= i < |replies| && replies[i] == r
                && forall j :: 0 <= j < |replies| && j != i ==> replies[j].id != r.id
  }

  lemma AddOther(replies: seq<Reply>, more: seq<Reply>, r: Reply)
    requires OnlyReply(replies, r) && forall x :: x in more ==> x.id != r.id
    ensures OnlyReply(replies + more, r)
  {
    var i :| && 0 <= i < |replies| && replies[i] == r
             && forall j :: 0 <= j < |replies| && j != i ==> replies[j].id != r.id;
    assert (replies + more)[i] == r;
    forall j | 0 <= j < |replies + more| && j != i
      ensures (replies + more)[j].id != r.id
    {
      assert j >= |replies| ==> (replies + more)[j] == more[j - |replies|];
    }
  }

  lemma AddThis(replies: seq<Reply>, r: Reply)
    requires forall x :: x in replies ==> x.id != r.id
    ensures OnlyReply(replies + [r], r)
  {
    assert (replies + [r])[|replies|] == r;
    assert forall j :: 0 <= j < |replies| ==> (replies + [r])[j] == replies[j] && replies[j] in replies;
  }

  lemma DistinctBefore(calls: seq<Call>)
    requires calls != [] && Distinct(Updates(calls))
    ensures var before, last := calls[..|calls| - 1], calls[|calls| - 1];
            Distinct(Updates(before)) && forall c :: c in before ==> IdOf(c.update) != IdOf(last.update)
  {
    var before := calls[..|calls| - 1];
    assert forall i :: 0 <= i < |before| ==> Updates(before)[i] == Updates(calls)[i] && before[i] == calls[i];
    assert Updates(calls)[|calls| - 1] == calls[|calls| - 1].update;
  }

  lemma {:induction false} OneReply(calls: seq<Call>, c: Call, r: Reply)
    requires Distinct(Updates(calls)) && c in calls && ReplyTo(c) == [r] && r.id == IdOf(c.update)
    ensures OnlyReply(Owed(calls), r)
    decreases |calls|
  {
    var before, last := calls[..|calls| - 1], calls[|calls| - 1];
    assert calls == before + [last];
    DistinctBefore(calls);
    RepliesHaveId(last);
    hide OnlyReply, ReplyTo, IdOf;
    if c in before {
      OneReply(before, c, r);
      AddOther(Owed(before), ReplyTo(last), r);
    } else {
      RepliesCome(before);
      AddThis(Owed(before), r);
    }
  }

  lemma RepliesHaveId(c: Call)
    ensures forall r :: r in ReplyTo(c) ==> r.id == IdOf(c.update)
  {
    UpdateReads(c.update);
  }

  /** Every handled update with a chat id gets exactly one reply attempt, with the text of its result if that has
      one, and otherwise with an apology. */
  lemma OneReplyEach(calls: seq<Call>, c: Call, chat: int)
    requires Distinct(Updates(calls)) && c in calls && FromChat(c.update, chat)
    ensures forall text :: Says(c.result, text) ==> OnlyReply(Owed(calls), Reply(IdOf(c.update), chat, text))
    ensures (forall text :: !Says(c.result, text)) ==>
              OnlyReply(Owed(calls),
                        Reply(IdOf(c.update), chat, "Sorry, something went wrong. Please try again later."))
  {
    UpdateReads(c.update);
    var r := Reply(IdOf(c.update), chat, ReplyText(c.result));
    assert ReplyTo(c) == [r];
    OneReply(calls, c, r);
  }
}
